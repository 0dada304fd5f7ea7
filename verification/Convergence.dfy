/** Geometric convergence of the observer fleet to the pinned reference, when
    every agent reads its neighbours exactly at every tick.
  */
module Convergence {
  import opened RealMath
  import opened Virtual

  /** An observer and the positions of the agents it reads. */
  datatype Node = Node(layer: Layer, nbrs: seq<nat>, h: real)

  function Read(nodes: seq<Node>, nbrs: seq<nat>): (ps: seq<Pair>)
    ensures |ps| == |nbrs|
  {
    seq(|nbrs|, j requires 0 <= j < |nbrs| =>
      if nbrs[j] < |nodes| then nodes[nbrs[j]].layer.z else Pair(0.0, 0.0))
  }

  function Time(n: Node, k: nat): real {
    k as real * n.h
  }

  /** Agent `n`'s tick number k, all reads taken before any commit. */
  function TickNode(nodes: seq<Node>, n: Node, k: nat): Node {
    var m := Hold(n.layer, Read(nodes, n.nbrs));
    if m.Valid() && Den(m, Time(n, k), n.h) != 0.0
    then n.(layer := Commit(m, Step(m, Time(n, k), n.h)))
    else n
  }

  function Tick(nodes: seq<Node>, k: nat): (r: seq<Node>)
    ensures |r| == |nodes|
  {
    seq(|nodes|, i requires 0 <= i < |nodes| => TickNode(nodes, nodes[i], k))
  }

  /** The fleet after ticks k, k + 1, ..., k + n - 1. */
  function Run(nodes: seq<Node>, k: nat, n: nat): (r: seq<Node>)
    ensures |r| == |nodes|
    decreases n
  {
    if n == 0 then nodes else Tick(Run(nodes, k, n - 1), k + n - 1)
  }

  // --------------------------------------------------------------- hypotheses

  predicate NodeOk(n: Node, count: nat, r: Pair) {
    && Ready(n.layer, n.h) && n.h > 0.0
    && n.layer.c >= n.layer.p.c0
    && n.layer.degree == |n.nbrs|
    && (forall j | 0 <= j < |n.nbrs| :: n.nbrs[j] < count)
    && (n.layer.p.b > 0.0 ==> n.layer.p.r == r)
  }

  predicate Ok(nodes: seq<Node>, r: Pair) {
    forall i | 0 <= i < |nodes| :: NodeOk(nodes[i], |nodes|, r)
  }

  /** `hops[i]` counts the reads from agent i back to a pinned agent. */
  predicate Reaches(nodes: seq<Node>, hops: seq<nat>, b: real, L: nat) {
    && |hops| == |nodes|
    && forall i | 0 <= i < |nodes| ::
         && hops[i] <= L
         && (hops[i] == 0 ==> nodes[i].layer.p.b >= b)
         && (hops[i] > 0 ==> Closer(nodes[i], hops, hops[i]))
  }

  predicate Closer(n: Node, hops: seq<nat>, d: nat) {
    exists j | 0 <= j < |n.nbrs| :: n.nbrs[j] < |hops| && hops[n.nbrs[j]] + 1 == d
  }

  /** The smallest weight an agent's step can have: that of the initial gain at time 0. */
  function ThetaFloor(n: Node): real
    requires n.layer.Valid() && 1.0 + Push(n) != 0.0
  {
    Push(n) / (1.0 + Push(n))
  }

  /** h c_0 f_o(0) D. */
  function Push(n: Node): real
    requires n.layer.Valid()
  {
    n.h * (n.layer.p.c0 * Fo(n.layer.p, 0.0)) * n.layer.D()
  }

  predicate Bounded(n: Node, theta: real, dMax: real) {
    && n.layer.Valid() && n.layer.D() <= dMax
    && 1.0 + Push(n) != 0.0 && theta <= ThetaFloor(n)
  }

  predicate Bounds(nodes: seq<Node>, theta: real, b: real, dMax: real) {
    && 0.0 < theta <= 1.0 && 0.0 < b && 1.0 <= dMax
    && b <= dMax
    && forall i | 0 <= i < |nodes| :: Bounded(nodes[i], theta, dMax)
  }

  /** What a hop leaves of the pull: theta b / Dmax at a pinned agent, theta / Dmax of it per hop. */
  function Pull(theta: real, b: real, dMax: real, d: nat): real
    requires dMax > 0.0
  {
    if d == 0 then theta * b / dMax else theta * Pull(theta, b, dMax, d - 1) / dMax
  }

  function Pow(x: real, n: nat): real {
    if n == 0 then 1.0 else x * Pow(x, n - 1)
  }

  /** The share of the distance that L + 1 ticks are sure to take. */
  function RoundGain(theta: real, b: real, dMax: real, L: nat): real
    requires dMax > 0.0
  {
    b * Pow(theta / dMax, L + 1)
  }

  lemma {:induction false} PullClosed(theta: real, b: real, dMax: real, d: nat)
    requires dMax > 0.0
    ensures Pull(theta, b, dMax, d) == RoundGain(theta, b, dMax, d)
  {
    var q := theta / dMax;
    DivMul(theta, dMax);
    if d == 0 {
      assert Pow(q, 1) == q * Pow(q, 0) == q;
      DivProduct(theta, b, dMax);
    } else {
      PullClosed(theta, b, dMax, d - 1);
      DivProduct(theta, Pull(theta, b, dMax, d - 1), dMax);
      Swap(q, b, Pow(q, d));
    }
  }

  lemma DivProduct(x: real, y: real, d: real)
    requires d > 0.0
    ensures x * y / d == (x / d) * y
  {
    DivMul(x, d);
    DivMul(x * y, d);
    assert d * (x * y / d) == d * ((x / d) * y);
    Cancel(d, x * y / d, (x / d) * y);
  }

  lemma Swap(q: real, b: real, p: real)
    ensures q * (b * p) == b * (q * p)
  {}

  lemma PullStep(theta: real, b: real, dMax: real, d: nat)
    requires dMax > 0.0
    ensures Pull(theta, b, dMax, 0) == theta * b / dMax
    ensures d > 0 ==> Pull(theta, b, dMax, d) == theta * Pull(theta, b, dMax, d - 1) / dMax
  {}

  lemma {:induction false} PullRange(theta: real, b: real, dMax: real, d: nat)
    requires 0.0 < theta <= 1.0 && 0.0 < b <= dMax && 1.0 <= dMax
    ensures 0.0 < Pull(theta, b, dMax, d) <= 1.0
    ensures d > 0 ==> Pull(theta, b, dMax, d) <= Pull(theta, b, dMax, d - 1)
  {
    hide Pull;
    PullStep(theta, b, dMax, d);
    if d == 0 {
      Weaker(theta, b, dMax);
      MulMono(b, theta, 1.0);
      DivLe(theta * b, dMax, 1.0);
    } else {
      PullRange(theta, b, dMax, d - 1);
      Weaker(theta, Pull(theta, b, dMax, d - 1), dMax);
    }
  }

  lemma Weaker(theta: real, p: real, dMax: real)
    requires 0.0 < theta <= 1.0 && 0.0 < p && 1.0 <= dMax
    ensures 0.0 < theta * p / dMax <= p
  {
    MulPos(theta, p);
    DivPos(theta * p, dMax);
    AtMostScaled(theta, p, dMax);
    DivLe(theta * p, dMax, p);
  }

  lemma AtMostScaled(theta: real, p: real, dMax: real)
    requires theta <= dMax && 0.0 < p
    ensures theta * p <= p * dMax
  {
    MulMono(p, theta, dMax);
  }

  lemma {:induction false} PullDecreases(theta: real, b: real, dMax: real, d: nat, L: nat)
    requires 0.0 < theta <= 1.0 && 0.0 < b <= dMax && 1.0 <= dMax && d <= L
    ensures Pull(theta, b, dMax, L) <= Pull(theta, b, dMax, d)
    decreases L
  {
    if d < L {
      PullDecreases(theta, b, dMax, d, L - 1);
      PullRange(theta, b, dMax, L);
    }
  }

  // -------------------------------------------------------------- one step's pull

  predicate Near(x: Pair, r: Pair, m: real) {
    Abs(x.P - r.P) <= m && Abs(x.Q - r.Q) <= m
  }

  /** What is left of the distance m once the share p of it is gone. */
  function Left(p: real, m: real): real {
    (1.0 - p) * m
  }

  function Share(th: real, slack: real, D: real): real
    requires D > 0.0
  {
    th * slack / D
  }

  /** The held sum w misses D r by at most (D - slack) m. */
  predicate Short(w: real, D: real, r: real, slack: real, m: real) {
    Abs(w - D * r) <= (D - slack) * m
  }

  /** A neighbour sum short of the full spread by `slack` pulls the step in by theta slack / D. */
  lemma StepSlack(l: Layer, t: real, h: real, z: real, w: real, r: real, m: real, slack: real)
    requires Ready(l, h) && Abs(z - r) <= m && Short(w, l.D(), r, slack, m)
    ensures Den(l, t, h) >= 1.0
    ensures Abs(NextZ(l, t, h, z, w) - r) <= Left(Share(Theta(l, t, h), slack, l.D()), m)
  {
    hide NextZ, Theta, Den, Short, Abs, Left, Share;
    ThetaRange(l, t, h);
    ConvexForm(l, t, h, z, w);
    SlackAlgebra(NextZ(l, t, h, z, w), Theta(l, t, h), z, w, l.D(), r, m, slack);
  }

  lemma SlackAlgebra(next: real, th: real, z: real, w: real, D: real, r: real, m: real, slack: real)
    requires 0.0 <= th <= 1.0 && Abs(z - r) <= m && D > 0.0 && Short(w, D, r, slack, m)
    requires next == (1.0 - th) * z + th * (w / D)
    ensures Abs(next - r) <= Left(Share(th, slack, D), m)
  {
    DivMul(w, D);
    DivMul(slack, D);
    QuotientError(w, D, r, m, slack, w / D, slack / D);
    DivProduct2(th, slack, D, slack / D);
    MixTowards(next, th, z, w / D, r, m, slack / D, th * slack / D);
  }

  lemma MixTowards(next: real, th: real, z: real, q: real, r: real, m: real, s: real, x: real)
    requires 0.0 <= th <= 1.0 && Abs(z - r) <= m && Abs(q - r) <= (1.0 - s) * m
    requires next == (1.0 - th) * z + th * q && x == th * s
    ensures Abs(next - r) <= (1.0 - x) * m
  {
    Mix(th, z - r, q - r, m, (1.0 - s) * m);
    assert next - r == (1.0 - th) * (z - r) + th * (q - r);
    assert (1.0 - th) * m + th * ((1.0 - s) * m) == (1.0 - x) * m;
  }

  lemma DivProduct2(th: real, slack: real, D: real, s: real)
    requires D > 0.0 && s == slack / D
    ensures th * slack / D == th * s
  {
    DivMul(th * slack, D);
    DivMul(slack, D);
    Cancel(D, th * slack / D, th * s);
  }

  lemma QuotientError(w: real, D: real, r: real, m: real, slack: real, q: real, s: real)
    requires D > 0.0 && q * D == w && s * D == slack
    requires Abs(w - D * r) <= (D - slack) * m
    ensures Abs(q - r) <= (1.0 - s) * m
  {
    assert w - D * r == D * (q - r);
    assert (D - slack) * m == D * ((1.0 - s) * m);
    ScaleDown(D, q - r, (1.0 - s) * m);
  }

  lemma ScaleDown(D: real, e: real, m: real)
    requires D > 0.0 && Abs(D * e) <= D * m
    ensures Abs(e) <= m
  {
    if e > m { MulPos(D, e - m); assert false; }
    if e < -m { MulPos(D, -m - e); assert false; }
  }

  lemma Mix(th: real, x: real, y: real, a: real, b: real)
    requires 0.0 <= th <= 1.0 && Abs(x) <= a && Abs(y) <= b
    ensures Abs((1.0 - th) * x + th * y) <= (1.0 - th) * a + th * b
  {
    ScaledRest(th, x, a);
    Scaled(th, y, b);
  }

  lemma Scaled(k: real, x: real, a: real)
    requires k >= 0.0 && Abs(x) <= a
    ensures -(k * a) <= k * x <= k * a
  {
    MulMono(k, x, a);
    MulMono(k, -a, x);
  }

  lemma ScaledRest(th: real, x: real, a: real)
    requires th <= 1.0 && Abs(x) <= a
    ensures -((1.0 - th) * a) <= (1.0 - th) * x <= (1.0 - th) * a
  {
    assert (1.0 - th) * (a - x) >= 0.0;
    assert (1.0 - th) * (a + x) >= 0.0;
  }

  // ---------------------------------------------------------- the neighbour sum

  lemma {:induction false} SumNear(ps: seq<Pair>, r: Pair, m: real)
    requires forall j | 0 <= j < |ps| :: Near(ps[j], r, m)
    ensures Abs(Sum(ps).P - Times(|ps|, r.P)) <= Times(|ps|, m)
    ensures Abs(Sum(ps).Q - Times(|ps|, r.Q)) <= Times(|ps|, m)
  {
    if ps != [] {
      var k := |ps| - 1;
      SumNear(ps[..k], r, m);
      OneMore(k, r.P);
      OneMore(k, r.Q);
      OneMore(k, m);
    }
  }

  /** One neighbour closer by `gain` brings the whole sum closer by as much. */
  lemma {:induction false} SumNearer(ps: seq<Pair>, r: Pair, m: real, j: nat, gain: real)
    requires j < |ps| && forall i | 0 <= i < |ps| :: Near(ps[i], r, m)
    requires Near(ps[j], r, m - gain)
    ensures Abs(Sum(ps).P - Times(|ps|, r.P)) <= Times(|ps|, m) - gain
    ensures Abs(Sum(ps).Q - Times(|ps|, r.Q)) <= Times(|ps|, m) - gain
  {
    var k := |ps| - 1;
    if j < k {
      SumNearer(ps[..k], r, m, j, gain);
    } else {
      SumNear(ps[..k], r, m);
    }
    OneMore(k, r.P);
    OneMore(k, r.Q);
    OneMore(k, m);
  }

  // ---------------------------------------------------------- the weight's floor

  /** x / (1 + x) grows with x. */
  lemma FractionMono(x: real, y: real)
    requires 0.0 <= x <= y
    ensures x / (1.0 + x) <= y / (1.0 + y)
  {
    DivMul(x, 1.0 + x);
    var q := x / (1.0 + x);
    DivNonneg(x, 1.0 + x);
    assert q * (1.0 + y) == x + q * (y - x);
    DivLe(x, 1.0 + x, 1.0);
    MulMono(y - x, q, 1.0);
    DivGe(y, 1.0 + y, q);
  }

  lemma ProductMono(a: real, b: real, c: real, d: real)
    requires 0.0 <= a <= c && 0.0 <= b <= d
    ensures 0.0 <= a * b <= c * d
  {
    MulNonneg(a, b);
    MulMono(a, b, d);
    MulMono(d, a, c);
  }

  /** However the gain adapts, a step's weight never falls below its floor. */
  lemma ThetaAboveFloor(n: Node, m: Layer, t: real)
    requires Ready(n.layer, n.h) && Ready(m, n.h) && t >= 0.0
    requires m.p == n.layer.p && m.degree == n.layer.degree && m.c >= n.layer.p.c0
    ensures Den(m, t, n.h) >= 1.0 && 1.0 + Push(n) >= 1.0
    ensures ThetaFloor(n) <= Theta(m, t, n.h)
  {
    ScheduleNonneg(m.p, 0.0);
    ScheduleFloor(m.p, t);
    ThetaRange(m, t, n.h);
    Denominator(m, t, n.h);
    ProductMono(m.p.c0, Fo(m.p, 0.0), m.c, Fo(m.p, t));
    ProductMono(n.h, m.p.c0 * Fo(m.p, 0.0), n.h, m.c * Fo(m.p, t));
    ProductMono(n.h * (m.p.c0 * Fo(m.p, 0.0)), m.D(), n.h * Gain(m, t), m.D());
    FractionMono(Push(n), n.h * Gain(m, t) * m.D());
  }

  // -------------------------------------------------------------------- one tick

  predicate AllNear(nodes: seq<Node>, r: Pair, m: real) {
    forall i | 0 <= i < |nodes| :: Near(nodes[i].layer.z, r, m)
  }

  lemma TickNodeIs(nodes: seq<Node>, n: Node, k: nat, r: Pair)
    requires NodeOk(n, |nodes|, r)
    ensures var m := Hold(n.layer, Read(nodes, n.nbrs));
            && m.Valid() && Den(m, Time(n, k), n.h) >= 1.0
            && Ready(m, n.h) && m.p == n.layer.p && m.D() == n.layer.D()
            && TickNode(nodes, n, k) == n.(layer := Commit(m, Step(m, Time(n, k), n.h)))
  {
    hide Den, Hold, Step, Read, Time;
    HoldReady(n.layer, Read(nodes, n.nbrs), n.h);
    DenAtLeastOne(Hold(n.layer, Read(nodes, n.nbrs)), Time(n, k), n.h);
  }

  lemma ReadNear(nodes: seq<Node>, nbrs: seq<nat>, r: Pair, m: real)
    requires AllNear(nodes, r, m) && forall j | 0 <= j < |nbrs| :: nbrs[j] < |nodes|
    ensures forall j | 0 <= j < |nbrs| :: Near(Read(nodes, nbrs)[j], r, m)
    ensures forall j | 0 <= j < |nbrs| :: Read(nodes, nbrs)[j] == nodes[nbrs[j]].layer.z
  {}

  /** The held sum of a node whose neighbours are all near: a pin is all the slack there is. */
  lemma HeldShort(nodes: seq<Node>, n: Node, r: Pair, m: real)
    requires NodeOk(n, |nodes|, r) && AllNear(nodes, r, m)
    ensures var w := Hold(n.layer, Read(nodes, n.nbrs)).w;
            && Short(w.P, n.layer.D(), r.P, n.layer.p.b, m)
            && Short(w.Q, n.layer.D(), r.Q, n.layer.p.b, m)
  {
    hide Sum, Read, Times, Abs, Short;
    var ps, l := Read(nodes, n.nbrs), Hold(n.layer, Read(nodes, n.nbrs));
    ReadNear(nodes, n.nbrs, r, m);
    SumNear(ps, r, m);
    HeldAlgebra(Sum(ps).P, l.w.P, n.layer.D(), |ps|, n.layer.p.b, n.layer.p.r.P, r.P, m, 0.0);
    HeldAlgebra(Sum(ps).Q, l.w.Q, n.layer.D(), |ps|, n.layer.p.b, n.layer.p.r.Q, r.Q, m, 0.0);
  }

  /** A neighbour nearer by the share g adds g to the slack. */
  lemma HeldShorter(nodes: seq<Node>, n: Node, r: Pair, m: real, j: nat, g: real)
    requires NodeOk(n, |nodes|, r) && AllNear(nodes, r, m)
    requires j < |n.nbrs| && Near(nodes[n.nbrs[j]].layer.z, r, Left(g, m))
    ensures var w := Hold(n.layer, Read(nodes, n.nbrs)).w;
            && Short(w.P, n.layer.D(), r.P, n.layer.p.b + g, m)
            && Short(w.Q, n.layer.D(), r.Q, n.layer.p.b + g, m)
  {
    hide Sum, Read, Times, Abs, Short;
    var ps, l := Read(nodes, n.nbrs), Hold(n.layer, Read(nodes, n.nbrs));
    ReadNear(nodes, n.nbrs, r, m);
    assert (1.0 - g) * m == m - g * m;
    SumNearer(ps, r, m, j, g * m);
    HeldAlgebra(Sum(ps).P, l.w.P, n.layer.D(), |ps|, n.layer.p.b, n.layer.p.r.P, r.P, m, g);
    HeldAlgebra(Sum(ps).Q, l.w.Q, n.layer.D(), |ps|, n.layer.p.b, n.layer.p.r.Q, r.Q, m, g);
  }

  lemma HeldAlgebra(s: real, w: real, D: real, n: nat, b: real, pr: real, r: real, m: real, g: real)
    requires b >= 0.0 && (b > 0.0 ==> pr == r)
    requires w == s + b * pr && D == n as real + b
    requires Abs(s - Times(n, r)) <= Times(n, m) - g * m
    ensures Short(w, D, r, b + g, m)
  {
    assert D * r == Times(n, r) + b * r;
    assert (D - (b + g)) * m == Times(n, m) - g * m;
  }

  // ----------------------------------------------------------------- one node's tick

  /** Only the local value and the gain of a node change, and the gain only up. */
  predicate Kept(a: Node, z: Node) {
    && z.layer.p == a.layer.p && z.layer.degree == a.layer.degree
    && z.nbrs == a.nbrs && z.h == a.h && z.layer.c >= a.layer.c
  }

  lemma TickNodeKept(nodes: seq<Node>, n: Node, k: nat, r: Pair)
    requires NodeOk(n, |nodes|, r)
    ensures Kept(n, TickNode(nodes, n, k)) && NodeOk(TickNode(nodes, n, k), |nodes|, r)
  {
    hide Den, Hold, Read, Time, TickNode, NextZ, NextC, Slope;
    TickNodeIs(nodes, n, k, r);
    var m := Hold(n.layer, Read(nodes, n.nbrs));
    HeldKeeps(n.layer, Read(nodes, n.nbrs));
    GainGrows(m, Time(n, k), n.h, Eta(m));
  }

  lemma HeldKeeps(l: Layer, ps: seq<Pair>)
    ensures Hold(l, ps) == l.(w := Hold(l, ps).w)
  {}

  /** The weight of the step `TickNode` takes. */
  function Weight(nodes: seq<Node>, n: Node, k: nat): real {
    var m := Hold(n.layer, Read(nodes, n.nbrs));
    if m.Valid() && Den(m, Time(n, k), n.h) != 0.0 then Theta(m, Time(n, k), n.h) else 0.0
  }

  lemma WeightRange(nodes: seq<Node>, n: Node, k: nat, r: Pair)
    requires NodeOk(n, |nodes|, r)
    ensures 0.0 <= Weight(nodes, n, k) < 1.0
    ensures n.layer.Valid() && 1.0 + Push(n) >= 1.0 && ThetaFloor(n) <= Weight(nodes, n, k)
  {
    hide Den, Hold, Read, Time, TickNode, Theta, ThetaFloor, Push;
    TickNodeIs(nodes, n, k, r);
    var l, t := Hold(n.layer, Read(nodes, n.nbrs)), Time(n, k);
    HeldKeeps(n.layer, Read(nodes, n.nbrs));
    TimeNonneg(n, k);
    ThetaAboveFloor(n, l, t);
    ThetaRange(l, t, n.h);
  }

  lemma TickNodeNear(nodes: seq<Node>, n: Node, k: nat, r: Pair, m: real, slack: real, pull: real)
    requires NodeOk(n, |nodes|, r) && Near(n.layer.z, r, m)
    requires var w := Hold(n.layer, Read(nodes, n.nbrs)).w;
             Short(w.P, n.layer.D(), r.P, slack, m) && Short(w.Q, n.layer.D(), r.Q, slack, m)
    requires pull <= Share(Weight(nodes, n, k), slack, n.layer.D())
    ensures Near(TickNode(nodes, n, k).layer.z, r, Left(pull, m))
  {
    hide Den, Hold, Read, Time, TickNode, NextZ, NextC, Slope, Theta, Short, Abs, Left, Share;
    TickNodeIs(nodes, n, k, r);
    var l, t := Hold(n.layer, Read(nodes, n.nbrs)), Time(n, k);
    HeldKeeps(n.layer, Read(nodes, n.nbrs));
    StepSlack(l, t, n.h, l.z.P, l.w.P, r.P, m, slack);
    StepSlack(l, t, n.h, l.z.Q, l.w.Q, r.Q, m, slack);
    AbsNonneg(n.layer.z.P - r.P);
    LeftMono(pull, Share(Weight(nodes, n, k), slack, n.layer.D()), m);
  }

  lemma LeftMono(p: real, q: real, m: real)
    requires p <= q && m >= 0.0
    ensures Left(q, m) <= Left(p, m)
  {
    MulMono(m, p, q);
  }

  lemma TimeNonneg(n: Node, k: nat)
    requires n.h >= 0.0
    ensures Time(n, k) >= 0.0
  {
    MulNonneg(k as real, n.h);
  }

  /** A weight of at least theta, a slack of at least p and a divisor of at most dMax. */
  lemma QuotientMono(theta: real, p: real, dMax: real, th: real, slack: real, D: real)
    requires 0.0 <= theta <= th && 0.0 <= p <= slack && 0.0 < D <= dMax
    ensures theta * p / dMax <= Share(th, slack, D)
  {
    ProductMono(theta, p, th, slack);
    var q := theta * p / dMax;
    DivMul(theta * p, dMax);
    DivNonneg(theta * p, dMax);
    MulMono(q, D, dMax);
    DivGe(th * slack, D, q);
  }

  // ------------------------------------------------------------------- the fleet's tick

  /** Everything about the fleet that no tick changes. */
  predicate Fleet(nodes: seq<Node>, hops: seq<nat>, r: Pair, theta: real, b: real, dMax: real, L: nat) {
    Ok(nodes, r) && Bounds(nodes, theta, b, dMax) && Reaches(nodes, hops, b, L)
  }

  /** Agents fewer than n reads from a pin have felt it. */
  predicate Felt(nodes: seq<Node>, hops: seq<nat>, r: Pair, theta: real, b: real, dMax: real, m: real, n: nat)
    requires dMax > 0.0 && |hops| == |nodes|
  {
    forall i | 0 <= i < |nodes| && hops[i] < n ::
      Near(nodes[i].layer.z, r, Left(Pull(theta, b, dMax, hops[i]), m))
  }

  lemma TickOk(nodes: seq<Node>, k: nat, r: Pair)
    requires Ok(nodes, r)
    ensures Ok(Tick(nodes, k), r)
    ensures forall i | 0 <= i < |nodes| :: Kept(nodes[i], Tick(nodes, k)[i])
  {
    hide TickNode, NodeOk;
    forall i | 0 <= i < |nodes|
      ensures NodeOk(Tick(nodes, k)[i], |nodes|, r) && Kept(nodes[i], Tick(nodes, k)[i])
    {
      TickNodeKept(nodes, nodes[i], k, r);
    }
  }

  /** No tick takes the fleet further from the reference. */
  lemma TickNeverGrows(nodes: seq<Node>, k: nat, r: Pair, m: real)
    requires Ok(nodes, r) && AllNear(nodes, r, m)
    ensures AllNear(Tick(nodes, k), r, m)
  {
    hide TickNode, Weight, Short, Near, Hold;
    forall i | 0 <= i < |nodes|
      ensures Near(Tick(nodes, k)[i].layer.z, r, m)
    {
      var n := nodes[i];
      HeldShort(nodes, n, r, m);
      WeightRange(nodes, n, k, r);
      ShareNonneg(Weight(nodes, n, k), n.layer.p.b, n.layer.D());
      TickNodeNear(nodes, n, k, r, m, n.layer.p.b, 0.0);
      assert (1.0 - 0.0) * m == m;
    }
  }

  lemma ShareNonneg(th: real, slack: real, D: real)
    requires th >= 0.0 && slack >= 0.0 && D > 0.0
    ensures Share(th, slack, D) >= 0.0
  {
    MulNonneg(th, slack);
    DivNonneg(th * slack, D);
  }

  lemma TickFleet(nodes: seq<Node>, hops: seq<nat>, k: nat, r: Pair, theta: real, b: real, dMax: real, L: nat)
    requires Fleet(nodes, hops, r, theta, b, dMax, L)
    ensures Fleet(Tick(nodes, k), hops, r, theta, b, dMax, L)
  {
    TickOk(nodes, k, r);
    hide Tick, NodeOk, ThetaFloor, Ok;
    var next := Tick(nodes, k);
    forall i | 0 <= i < |nodes|
      ensures Bounded(next[i], theta, dMax)
      ensures hops[i] > 0 ==> Closer(next[i], hops, hops[i])
    {
      assert Kept(nodes[i], next[i]);
      BoundedKept(nodes[i], next[i], theta, dMax);
    }
  }

  lemma BoundedKept(n: Node, z: Node, theta: real, dMax: real)
    requires Kept(n, z) && Bounded(n, theta, dMax)
    ensures Bounded(z, theta, dMax)
  {
    FloorKept(n, z);
  }

  lemma FloorKept(n: Node, z: Node)
    requires Kept(n, z) && n.layer.Valid()
    ensures z.layer.Valid() && Push(n) == Push(z)
  {
    assert n.layer.D() == z.layer.D();
  }

  lemma AgentFacts(nodes: seq<Node>, hops: seq<nat>, r: Pair, theta: real, b: real, dMax: real, L: nat,
                   m: real, i: nat)
    requires Fleet(nodes, hops, r, theta, b, dMax, L) && AllNear(nodes, r, m) && i < |nodes|
    ensures NodeOk(nodes[i], |nodes|, r) && Bounded(nodes[i], theta, dMax) && Near(nodes[i].layer.z, r, m)
    ensures |hops| == |nodes|
    ensures hops[i] == 0 ==> nodes[i].layer.p.b >= b
    ensures hops[i] > 0 ==> Closer(nodes[i], hops, hops[i])
  {
    hide NodeOk, Bounded, Near, Closer;
  }

  /** The neighbour one read closer to a pin. */
  lemma Reader(nodes: seq<Node>, hops: seq<nat>, r: Pair, theta: real, b: real, dMax: real, m: real, n: Node,
               d: nat)
    returns (j: nat)
    requires dMax > 0.0 && |hops| == |nodes| && d > 0
    requires Closer(n, hops, d) && Felt(nodes, hops, r, theta, b, dMax, m, d)
    ensures j < |n.nbrs| && n.nbrs[j] < |nodes|
    ensures Near(nodes[n.nbrs[j]].layer.z, r, Left(Pull(theta, b, dMax, d - 1), m))
  {
    hide Near, Pull, Left;
    j :| 0 <= j < |n.nbrs| && n.nbrs[j] < |hops| && hops[n.nbrs[j]] + 1 == d;
  }

  /** One tick carries the pull one read further: agent i. */
  lemma NodeFelt(nodes: seq<Node>, hops: seq<nat>, k: nat, r: Pair, theta: real, b: real, dMax: real,
                 L: nat, m: real, i: nat)
    requires Fleet(nodes, hops, r, theta, b, dMax, L)
    requires AllNear(nodes, r, m) && i < |nodes| && Felt(nodes, hops, r, theta, b, dMax, m, hops[i])
    ensures Near(TickNode(nodes, nodes[i], k).layer.z, r, Left(Pull(theta, b, dMax, hops[i]), m))
  {
    hide TickNode, Near, Pull, NodeOk, Bounded, Felt, Ok, Closer, AllNear, Reaches, Left;
    AgentFacts(nodes, hops, r, theta, b, dMax, L, m, i);
    if hops[i] == 0 {
      PinPulls(nodes, nodes[i], k, r, theta, b, dMax, m);
    } else {
      var j := Reader(nodes, hops, r, theta, b, dMax, m, nodes[i], hops[i]);
      ReadPulls(nodes, nodes[i], k, r, theta, b, dMax, m, j, hops[i]);
    }
  }

  lemma TickFelt(nodes: seq<Node>, hops: seq<nat>, k: nat, r: Pair, theta: real, b: real, dMax: real,
                 L: nat, m: real, n: nat)
    requires Fleet(nodes, hops, r, theta, b, dMax, L)
    requires AllNear(nodes, r, m) && Felt(nodes, hops, r, theta, b, dMax, m, n)
    ensures Felt(Tick(nodes, k), hops, r, theta, b, dMax, m, n + 1)
  {
    hide TickNode, Near, Pull, Ok, Bounded, Closer, AllNear, Left;
    forall i | 0 <= i < |nodes| && hops[i] < n + 1
      ensures Near(Tick(nodes, k)[i].layer.z, r, Left(Pull(theta, b, dMax, hops[i]), m))
    {
      NodeFelt(nodes, hops, k, r, theta, b, dMax, L, m, i);
    }
  }

  lemma NodeOkBasics(n: Node, count: nat, r: Pair)
    requires NodeOk(n, count, r)
    ensures n.layer.D() > 0.0 && n.layer.p.b >= 0.0
  {}

  lemma PinPulls(nodes: seq<Node>, n: Node, k: nat, r: Pair, theta: real, b: real, dMax: real, m: real)
    requires NodeOk(n, |nodes|, r) && Bounded(n, theta, dMax) && 0.0 < theta && 0.0 < b <= n.layer.p.b
    requires AllNear(nodes, r, m) && Near(n.layer.z, r, m)
    ensures dMax > 0.0
    ensures Near(TickNode(nodes, n, k).layer.z, r, Left(Pull(theta, b, dMax, 0), m))
  {
    hide TickNode, Weight, Short, Near, Hold, Pull, ThetaFloor, Push, Left, Share, NodeOk, AllNear;
    NodeOkBasics(n, |nodes|, r);
    HeldShort(nodes, n, r, m);
    WeightRange(nodes, n, k, r);
    PullStep(theta, b, dMax, 0);
    QuotientMono(theta, b, dMax, Weight(nodes, n, k), n.layer.p.b, n.layer.D());
    TickNodeNear(nodes, n, k, r, m, n.layer.p.b, Pull(theta, b, dMax, 0));
  }

  lemma ReadPulls(nodes: seq<Node>, n: Node, k: nat, r: Pair, theta: real, b: real, dMax: real, m: real,
                  j: nat, d: nat)
    requires NodeOk(n, |nodes|, r) && Bounded(n, theta, dMax)
    requires 0.0 < theta <= 1.0 && 0.0 < b <= dMax && 1.0 <= dMax && d > 0
    requires AllNear(nodes, r, m) && Near(n.layer.z, r, m)
    requires j < |n.nbrs| && Near(nodes[n.nbrs[j]].layer.z, r, Left(Pull(theta, b, dMax, d - 1), m))
    ensures Near(TickNode(nodes, n, k).layer.z, r, Left(Pull(theta, b, dMax, d), m))
  {
    hide TickNode, Weight, Short, Near, Hold, Pull, ThetaFloor, Push, Left, Share, NodeOk, AllNear;
    NodeOkBasics(n, |nodes|, r);
    var p := Pull(theta, b, dMax, d - 1);
    HeldShorter(nodes, n, r, m, j, p);
    WeightRange(nodes, n, k, r);
    PullStep(theta, b, dMax, d);
    PullRange(theta, b, dMax, d - 1);
    QuotientMono(theta, p, dMax, Weight(nodes, n, k), n.layer.p.b + p, n.layer.D());
    TickNodeNear(nodes, n, k, r, m, n.layer.p.b + p, Pull(theta, b, dMax, d));
  }

  // ------------------------------------------------------------------------- whole runs

  /** Over any number of ticks the fleet never gets further from the reference. */
  lemma {:induction false} NeverGrows(nodes: seq<Node>, k: nat, n: nat, r: Pair, m: real)
    requires Ok(nodes, r) && AllNear(nodes, r, m)
    ensures Ok(Run(nodes, k, n), r) && AllNear(Run(nodes, k, n), r, m)
  {
    hide Tick, Ok, AllNear;
    if n > 0 {
      NeverGrows(nodes, k, n - 1, r, m);
      TickOk(Run(nodes, k, n - 1), k + n - 1, r);
      TickNeverGrows(Run(nodes, k, n - 1), k + n - 1, r, m);
    }
  }

  lemma {:induction false} RunFelt(nodes: seq<Node>, hops: seq<nat>, k: nat, r: Pair, theta: real, b: real,
                                   dMax: real, L: nat, m: real, n: nat)
    requires Fleet(nodes, hops, r, theta, b, dMax, L) && AllNear(nodes, r, m)
    ensures Fleet(Run(nodes, k, n), hops, r, theta, b, dMax, L) && AllNear(Run(nodes, k, n), r, m)
    ensures Felt(Run(nodes, k, n), hops, r, theta, b, dMax, m, n)
  {
    hide Tick, AllNear, Near, NodeOk, Bounded, Closer;
    if n > 0 {
      var was := Run(nodes, k, n - 1);
      RunFelt(nodes, hops, k, r, theta, b, dMax, L, m, n - 1);
      TickFleet(was, hops, k + n - 1, r, theta, b, dMax, L);
      TickNeverGrows(was, k + n - 1, r, m);
      TickFelt(was, hops, k + n - 1, r, theta, b, dMax, L, m, n - 1);
    }
  }

  /** Every L + 1 ticks the whole fleet's distance shrinks by the factor
      1 - b (theta / Dmax)^(L+1). */
  lemma RoundShrinks(nodes: seq<Node>, hops: seq<nat>, k: nat, r: Pair, theta: real, b: real, dMax: real,
                     L: nat, m: real)
    requires Fleet(nodes, hops, r, theta, b, dMax, L) && AllNear(nodes, r, m)
    ensures Fleet(Run(nodes, k, L + 1), hops, r, theta, b, dMax, L)
    ensures AllNear(Run(nodes, k, L + 1), r, Left(RoundGain(theta, b, dMax, L), m))
  {
    hide Left, Run, Near, NodeOk, Bounded, Closer, Pull, RoundGain;
    RunFelt(nodes, hops, k, r, theta, b, dMax, L, m, L + 1);
    PullClosed(theta, b, dMax, L);
    var last, p := Run(nodes, k, L + 1), Pull(theta, b, dMax, L);
    forall i | 0 <= i < |nodes| ensures Near(last[i].layer.z, r, Left(p, m)) {
      PullDecreases(theta, b, dMax, hops[i], L);
      NearNonneg(nodes[i].layer.z, r, m);
      LeftMono(p, Pull(theta, b, dMax, hops[i]), m);
      NearMono(last[i].layer.z, r, Left(Pull(theta, b, dMax, hops[i]), m), Left(p, m));
    }
  }

  lemma NearMono(x: Pair, r: Pair, m: real, m': real)
    requires Near(x, r, m) && m <= m'
    ensures Near(x, r, m')
  {}

  lemma NearNonneg(x: Pair, r: Pair, m: real)
    requires Near(x, r, m)
    ensures m >= 0.0
  {}

  lemma {:induction false} RunRun(nodes: seq<Node>, k: nat, a: nat, n: nat)
    ensures Run(nodes, k, a + n) == Run(Run(nodes, k, a), k + a, n)
  {
    hide Tick;
    if n > 0 {
      RunRun(nodes, k, a, n - 1);
    }
  }

  /** What is left after n rounds that each take the share p. */
  function LeftAfter(p: real, n: nat, m: real): real {
    Pow(1.0 - p, n) * m
  }

  lemma OneMoreRound(p: real, n: nat, m: real)
    ensures LeftAfter(p, 0, m) == m
    ensures LeftAfter(p, n + 1, m) == Left(p, LeftAfter(p, n, m))
  {}

  /** Geometric convergence, for every number of rounds, however the gains adapt. */
  lemma {:induction false} Converges(nodes: seq<Node>, hops: seq<nat>, k: nat, r: Pair, theta: real, b: real,
                                     dMax: real, L: nat, m: real, rounds: nat)
    requires Fleet(nodes, hops, r, theta, b, dMax, L) && AllNear(nodes, r, m)
    ensures dMax > 0.0
    ensures Fleet(Run(nodes, k, rounds * (L + 1)), hops, r, theta, b, dMax, L)
    ensures AllNear(Run(nodes, k, rounds * (L + 1)), r, LeftAfter(RoundGain(theta, b, dMax, L), rounds, m))
    decreases rounds
  {
    hide Run, Ok, Reaches, Bounded, AllNear, Left, LeftAfter, RoundGain;
    var p := RoundGain(theta, b, dMax, L);
    if rounds == 0 {
      RunZero(nodes, k);
      OneMoreRound(p, 0, m);
    } else {
      var n := (rounds - 1) * (L + 1);
      Converges(nodes, hops, k, r, theta, b, dMax, L, m, rounds - 1);
      RoundShrinks(Run(nodes, k, n), hops, k + n, r, theta, b, dMax, L, LeftAfter(p, rounds - 1, m));
      RunRun(nodes, k, n, L + 1);
      assert n + (L + 1) == rounds * (L + 1);
      OneMoreRound(p, rounds - 1, m);
    }
  }

  lemma RunZero(nodes: seq<Node>, k: nat)
    ensures Run(nodes, k, 0) == nodes
  {}

  /** The factor is a genuine one, strictly between 0 (included) and 1. */
  lemma FactorShrinks(theta: real, b: real, dMax: real, L: nat)
    requires 0.0 < theta <= 1.0 && 0.0 < b <= dMax && 1.0 <= dMax
    ensures 0.0 <= 1.0 - RoundGain(theta, b, dMax, L) < 1.0
  {
    PullRange(theta, b, dMax, L);
    PullClosed(theta, b, dMax, L);
  }

  /** A positive initial gain and any positive schedule give a positive weight floor. */
  lemma FloorPositive(n: Node, count: nat, r: Pair)
    requires NodeOk(n, count, r) && n.layer.p.c0 > 0.0 && (n.layer.p.alpha0 > 0.0 || n.layer.p.kappaO > 0.0)
    ensures 1.0 + Push(n) >= 1.0 && 0.0 < ThetaFloor(n) < 1.0
  {
    var p := n.layer.p;
    ScheduleNonneg(p, 0.0);
    if p.alpha0 > 0.0 {
      MulPos(p.alpha0, p.To);
      DivPos(p.alpha0 * p.To, Max(p.To - 0.0, p.deltaO));
    }
    MulPos(p.c0, Fo(p, 0.0));
    MulPos(n.h, p.c0 * Fo(p, 0.0));
    MulPos(n.h * (p.c0 * Fo(p, 0.0)), n.layer.D());
    DivPos(Push(n), 1.0 + Push(n));
    DivMul(Push(n), 1.0 + Push(n));
  }
}
