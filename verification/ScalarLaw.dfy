/** The scalar consensus law, and what a fleet of it conserves. */
module ScalarLaw {
  import opened RealMath

  datatype Params = Params(dt: real, eta: real, gain: real, delta: real, period: nat)

  datatype Law = Law(p: Params, x: real, z: real, vartheta: real, steps: nat)

  /** |d| to the coupling's exponent, for any such power function. */
  type Power = real -> real

  /** The coupling of one neighbour: odd, whatever the power is. */
  function Coupling(pow: Power, d: real): real {
    -Sign(d) * pow(Abs(d))
  }

  predicate Usable(enabled: seq<bool>, j: nat) {
    j < |enabled| && enabled[j]
  }

  function Consensus(pow: Power, z: real, vals: seq<real>, enabled: seq<bool>, n: nat): real
    requires n <= |vals|
  {
    if n == 0 then 0.0
    else Consensus(pow, z, vals, enabled, n - 1)
         + if Usable(enabled, n - 1) then Coupling(pow, z - vals[n - 1]) else 0.0
  }

  function Gi(p: Params, term: real): real {
    p.gain * term
  }

  function Effort(g: real, vartheta: real, sigma: real): real {
    g - vartheta * Sign(sigma)
  }

  function Rise(p: Params, sigma: real): real {
    p.eta * if Abs(sigma) > p.delta then 1.0 else 0.0
  }

  function Euler(x: real, dt: real, rate: real): real {
    x + dt * rate
  }

  function Step(pow: Power, l: Law, vals: seq<real>, enabled: seq<bool>, nu: real): Law
    requires l.p.period > 0
  {
    var g := Gi(l.p, Consensus(pow, l.z, vals, enabled, |vals|));
    var sigma := l.x - l.z;
    Law(l.p, Euler(l.x, l.p.dt, Effort(g, l.vartheta, sigma) + nu), Euler(l.z, l.p.dt, g),
        Euler(l.vartheta, l.p.dt, Rise(l.p, sigma)), (l.steps + 1) % l.p.period)
  }

  class FiniteTimeAdaptive {
    const p: Params
    const pow: Power
    var x: real
    var z: real
    var vartheta: real
    var steps: nat

    function Value(): Law
      reads this
    {
      Law(p, x, z, vartheta, steps)
    }

    constructor (p: Params, pow: Power, x: real, z: real, vartheta: real)
      ensures Value() == Law(p, x, z, vartheta, 0) && this.pow == pow
    {
      this.p, this.pow, this.x, this.z, this.vartheta, steps := p, pow, x, z, vartheta, 0;
    }

    method ConsensusTerm(vals: seq<real>, enabled: seq<bool>) returns (total: real)
      ensures total == Consensus(pow, z, vals, enabled, |vals|)
    {
      total := 0.0;
      for j := 0 to |vals|
        invariant total == Consensus(pow, z, vals, enabled, j)
      {
        if j >= |enabled| || !enabled[j] {
          continue;
        }
        total := total + Coupling(pow, z - vals[j]);
      }
    }

    method Update(vals: seq<real>, enabled: seq<bool>, nu: real)
      requires p.period > 0
      modifies this
      ensures Value() == Step(pow, old(Value()), vals, enabled, nu)
    {
      hide Consensus, Euler, Effort, Rise, Gi;
      var term := ConsensusTerm(vals, enabled);
      var g := Gi(p, term);
      var sigma := x - z;
      var u := Effort(g, vartheta, sigma);
      x := Euler(x, p.dt, u + nu);
      z := Euler(z, p.dt, g);
      vartheta := Euler(vartheta, p.dt, Rise(p, sigma));
      steps := (steps + 1) % p.period;
    }
  }

  // ------------------------------------------------------------------------ finite sums

  function Sum(f: nat -> real, n: nat): real {
    if n == 0 then 0.0 else Sum(f, n - 1) + f(n - 1)
  }

  lemma {:induction false} SumEqual(f: nat -> real, g: nat -> real, n: nat)
    requires forall i: nat | i < n :: f(i) == g(i)
    ensures Sum(f, n) == Sum(g, n)
  {
    if n > 0 {
      SumEqual(f, g, n - 1);
    }
  }

  lemma {:induction false} SumAdd(f: nat -> real, g: nat -> real, h: nat -> real, n: nat)
    requires forall i: nat | i < n :: h(i) == f(i) + g(i)
    ensures Sum(h, n) == Sum(f, n) + Sum(g, n)
  {
    if n > 0 {
      SumAdd(f, g, h, n - 1);
    }
  }

  lemma {:induction false} SumNegate(f: nat -> real, g: nat -> real, n: nat)
    requires forall i: nat | i < n :: g(i) == -f(i)
    ensures Sum(g, n) == -Sum(f, n)
  {
    if n > 0 {
      SumNegate(f, g, n - 1);
    }
  }

  lemma {:induction false} SumScale(f: nat -> real, g: nat -> real, k: real, n: nat)
    requires forall i: nat | i < n :: g(i) == k * f(i)
    ensures Sum(g, n) == k * Sum(f, n)
  {
    if n > 0 {
      SumScale(f, g, k, n - 1);
      assert k * (Sum(f, n - 1) + f(n - 1)) == k * Sum(f, n - 1) + k * f(n - 1);
    }
  }

  function RowSums(f: (nat, nat) -> real, m: nat): nat -> real {
    (i: nat) => Sum((j: nat) => f(i, j), m)
  }

  function ColumnSums(f: (nat, nat) -> real, n: nat): nat -> real {
    (j: nat) => Sum((i: nat) => f(i, j), n)
  }

  /** Rows first or columns first. */
  lemma {:induction false} SumSwap(f: (nat, nat) -> real, n: nat, m: nat)
    ensures Sum(RowSums(f, m), n) == Sum(ColumnSums(f, n), m)
  {
    if n == 0 {
      ZeroSum(ColumnSums(f, 0), m);
    } else {
      SumSwap(f, n - 1, m);
      var last := (j: nat) => f(n - 1, j);
      SumAdd(ColumnSums(f, n - 1), last, ColumnSums(f, n), m);
      assert RowSums(f, m)(n - 1) == Sum(last, m);
    }
  }

  lemma {:induction false} ZeroSum(f: nat -> real, n: nat)
    requires forall i: nat | i < n :: f(i) == 0.0
    ensures Sum(f, n) == 0.0
  {
    if n > 0 {
      ZeroSum(f, n - 1);
    }
  }

  /** The sum of an antisymmetric table is zero. */
  lemma Antisymmetric(f: (nat, nat) -> real, n: nat)
    requires forall i: nat, j: nat | i < n && j < n :: f(i, j) == -f(j, i)
    ensures Sum(RowSums(f, n), n) == 0.0
  {
    SumSwap(f, n, n);
    forall j: nat | j < n ensures RowSums(f, n)(j) == -ColumnSums(f, n)(j) {
      SumNegate((i: nat) => f(i, j), (i: nat) => f(j, i), n);
    }
    SumNegate(ColumnSums(f, n), RowSums(f, n), n);
  }

  // -------------------------------------------------------------------------- the fleet

  /** A law and the agents it reads. */
  datatype Node = Node(law: Law, nbrs: seq<nat>)

  /** One tick's circumstances: whom each agent may use, and its disturbance. */
  datatype Weather = Weather(enabled: seq<seq<bool>>, nu: seq<real>)

  function EnabledOf(w: Weather, i: nat): seq<bool> {
    if i < |w.enabled| then w.enabled[i] else []
  }

  function NuOf(w: Weather, i: nat): real {
    if i < |w.nu| then w.nu[i] else 0.0
  }

  function ZOf(nodes: seq<Node>, j: nat): real {
    if j < |nodes| then nodes[j].law.z else 0.0
  }

  /** Exact exchange: the values read are the values held. */
  function Read(nodes: seq<Node>, nbrs: seq<nat>): (vals: seq<real>)
    ensures |vals| == |nbrs|
  {
    seq(|nbrs|, k requires 0 <= k < |nbrs| => ZOf(nodes, nbrs[k]))
  }

  function Tick(pow: Power, nodes: seq<Node>, w: Weather): (r: seq<Node>)
    ensures |r| == |nodes|
  {
    seq(|nodes|, i requires 0 <= i < |nodes| =>
      if nodes[i].law.p.period > 0
      then nodes[i].(law := Step(pow, nodes[i].law, Read(nodes, nodes[i].nbrs), EnabledOf(w, i), NuOf(w, i)))
      else nodes[i])
  }

  /** How often the first n usable reads of a list are of agent j. */
  function Uses(nbrs: seq<nat>, enabled: seq<bool>, j: nat, n: nat): nat
    requires n <= |nbrs|
  {
    if n == 0 then 0
    else Uses(nbrs, enabled, j, n - 1) + if Usable(enabled, n - 1) && nbrs[n - 1] == j then 1 else 0
  }

  function Edges(nodes: seq<Node>, w: Weather, i: nat, j: nat): nat {
    if i < |nodes| then Uses(nodes[i].nbrs, EnabledOf(w, i), j, |nodes[i].nbrs|) else 0
  }

  /** Every usable read has its counterpart. */
  predicate Symmetric(nodes: seq<Node>, w: Weather) {
    forall i: nat, j: nat | i < |nodes| && j < |nodes| :: Edges(nodes, w, i, j) == Edges(nodes, w, j, i)
  }

  predicate Common(nodes: seq<Node>, gain: real, dt: real) {
    forall i | 0 <= i < |nodes| ::
      && nodes[i].law.p.gain == gain && nodes[i].law.p.dt == dt && nodes[i].law.p.period > 0
      && forall k | 0 <= k < |nodes[i].nbrs| :: nodes[i].nbrs[k] < |nodes|
  }

  function Total(nodes: seq<Node>): real {
    Sum((i: nat) => ZOf(nodes, i), |nodes|)
  }

  lemma CouplingOdd(pow: Power, d: real)
    ensures Coupling(pow, -d) == -Coupling(pow, d)
  {}

  /** n equal terms. */
  function Fold(n: nat, x: real): real {
    n as real * x
  }

  /** What the edges from i to j contribute at i. */
  function Flow(pow: Power, nodes: seq<Node>, w: Weather): (nat, nat) -> real {
    (i: nat, j: nat) => Fold(Edges(nodes, w, i, j), Coupling(pow, ZOf(nodes, i) - ZOf(nodes, j)))
  }

  lemma FlowAntisymmetric(pow: Power, nodes: seq<Node>, w: Weather, i: nat, j: nat)
    requires Symmetric(nodes, w) && i < |nodes| && j < |nodes|
    ensures Flow(pow, nodes, w)(i, j) == -Flow(pow, nodes, w)(j, i)
  {
    hide Coupling, Edges;
    var d := ZOf(nodes, i) - ZOf(nodes, j);
    CouplingOdd(pow, d);
    assert ZOf(nodes, j) - ZOf(nodes, i) == -d;
    FoldNegate(Edges(nodes, w, i, j), Coupling(pow, d), Coupling(pow, -d));
  }

  lemma FoldNegate(n: nat, c: real, c': real)
    requires c' == -c
    ensures Fold(n, c) == -Fold(n, c')
  {}

  function Part(pow: Power, nodes: seq<Node>, nbrs: seq<nat>, enabled: seq<bool>, z: real, n: nat): nat -> real
    requires n <= |nbrs|
  {
    (j: nat) => Fold(Uses(nbrs, enabled, j, n), Coupling(pow, z - ZOf(nodes, j)))
  }

  /** One agent's term, gathered by neighbour instead of by read. */
  lemma {:induction false} TermByNeighbor(pow: Power, nodes: seq<Node>, nbrs: seq<nat>, enabled: seq<bool>, z: real, n: nat)
    requires n <= |nbrs| && forall k | 0 <= k < |nbrs| :: nbrs[k] < |nodes|
    ensures Consensus(pow, z, Read(nodes, nbrs), enabled, n) == Sum(Part(pow, nodes, nbrs, enabled, z, n), |nodes|)
  {
    hide Coupling, Fold, Read;
    if n == 0 {
      NoUses(pow, nodes, nbrs, enabled, z);
    } else {
      TermByNeighbor(pow, nodes, nbrs, enabled, z, n - 1);
      ReadAt(nodes, nbrs, n - 1);
      var u := nbrs[n - 1];
      var c := if Usable(enabled, n - 1) then Coupling(pow, z - ZOf(nodes, u)) else 0.0;
      var single := (j: nat) => if j == u then c else 0.0;
      SingleSum(single, u, |nodes|);
      forall j: nat | j < |nodes|
        ensures Part(pow, nodes, nbrs, enabled, z, n)(j) == Part(pow, nodes, nbrs, enabled, z, n - 1)(j) + single(j)
      {
        OneMoreUse(Uses(nbrs, enabled, j, n - 1), Coupling(pow, z - ZOf(nodes, j)));
      }
      SumAdd(Part(pow, nodes, nbrs, enabled, z, n - 1), single, Part(pow, nodes, nbrs, enabled, z, n), |nodes|);
    }
  }

  lemma ReadAt(nodes: seq<Node>, nbrs: seq<nat>, k: nat)
    requires k < |nbrs|
    ensures Read(nodes, nbrs)[k] == ZOf(nodes, nbrs[k])
  {}

  lemma NoUses(pow: Power, nodes: seq<Node>, nbrs: seq<nat>, enabled: seq<bool>, z: real)
    ensures Sum(Part(pow, nodes, nbrs, enabled, z, 0), |nodes|) == 0.0
  {
    hide Coupling;
    ZeroSum(Part(pow, nodes, nbrs, enabled, z, 0), |nodes|);
  }

  lemma OneMoreUse(n: nat, x: real)
    ensures Fold(n + 1, x) == Fold(n, x) + x
  {}

  lemma {:induction false} SingleSum(f: nat -> real, u: nat, n: nat)
    requires forall j: nat | j != u :: f(j) == 0.0
    ensures Sum(f, n) == if u < n then f(u) else 0.0
  {
    if n > 0 {
      SingleSum(f, u, n - 1);
    }
  }

  function Terms(pow: Power, nodes: seq<Node>, w: Weather): nat -> real {
    (i: nat) => if i < |nodes|
                then Consensus(pow, nodes[i].law.z, Read(nodes, nodes[i].nbrs), EnabledOf(w, i), |nodes[i].nbrs|)
                else 0.0
  }

  /** Over a symmetric usable graph the consensus terms cancel. */
  lemma TermsCancel(pow: Power, nodes: seq<Node>, w: Weather, gain: real, dt: real)
    requires Common(nodes, gain, dt) && Symmetric(nodes, w)
    ensures Sum(Terms(pow, nodes, w), |nodes|) == 0.0
  {
    hide Consensus, Symmetric, Flow;
    var n, flow := |nodes|, Flow(pow, nodes, w);
    forall i: nat | i < n ensures Terms(pow, nodes, w)(i) == RowSums(flow, n)(i) {
      TermIsRow(pow, nodes, w, i);
    }
    SumEqual(Terms(pow, nodes, w), RowSums(flow, n), n);
    forall i: nat, j: nat | i < n && j < n ensures flow(i, j) == -flow(j, i) {
      FlowAntisymmetric(pow, nodes, w, i, j);
    }
    Antisymmetric(flow, n);
  }

  lemma TermIsRow(pow: Power, nodes: seq<Node>, w: Weather, i: nat)
    requires i < |nodes| && forall k | 0 <= k < |nodes[i].nbrs| :: nodes[i].nbrs[k] < |nodes|
    ensures Terms(pow, nodes, w)(i) == RowSums(Flow(pow, nodes, w), |nodes|)(i)
  {
    hide Coupling, Uses, Consensus, Fold;
    var nbrs, en, z := nodes[i].nbrs, EnabledOf(w, i), nodes[i].law.z;
    TermByNeighbor(pow, nodes, nbrs, en, z, |nbrs|);
    forall j: nat | j < |nodes| ensures Part(pow, nodes, nbrs, en, z, |nbrs|)(j) == Flow(pow, nodes, w)(i, j) {
      EdgesAre(nodes, w, i, j);
    }
    SumEqual(Part(pow, nodes, nbrs, en, z, |nbrs|), (j: nat) => Flow(pow, nodes, w)(i, j), |nodes|);
  }

  lemma EdgesAre(nodes: seq<Node>, w: Weather, i: nat, j: nat)
    requires i < |nodes|
    ensures ZOf(nodes, i) == nodes[i].law.z
    ensures Edges(nodes, w, i, j) == Uses(nodes[i].nbrs, EnabledOf(w, i), j, |nodes[i].nbrs|)
  {}

  /** The power of a distance is never negative. */
  ghost predicate Powerful(pow: Power) {
    forall d: real | d >= 0.0 :: pow(d) >= 0.0
  }

  /** A law whose usable neighbours are all on one side is drawn to that side. */
  lemma {:induction false} DrawnToNeighbors(pow: Power, z: real, vals: seq<real>, enabled: seq<bool>, n: nat)
    requires Powerful(pow) && n <= |vals|
    ensures (forall j | 0 <= j < n && Usable(enabled, j) :: vals[j] >= z) ==> Consensus(pow, z, vals, enabled, n) >= 0.0
    ensures (forall j | 0 <= j < n && Usable(enabled, j) :: vals[j] <= z) ==> Consensus(pow, z, vals, enabled, n) <= 0.0
  {
    hide Coupling;
    if n > 0 {
      DrawnToNeighbors(pow, z, vals, enabled, n - 1);
      CouplingSign(pow, z - vals[n - 1]);
    }
  }

  lemma CouplingSign(pow: Power, d: real)
    requires Powerful(pow)
    ensures d >= 0.0 ==> Coupling(pow, d) <= 0.0
    ensures d <= 0.0 ==> Coupling(pow, d) >= 0.0
    ensures d * Coupling(pow, d) == -Waste(pow, d) && Waste(pow, d) >= 0.0
  {
    var p := pow(Abs(d));
    MulNonneg(Abs(d), p);
    assert Coupling(pow, d) == if d > 0.0 then -p else if d < 0.0 then p else 0.0;
  }

  /** What a coupling across the distance d loses. */
  function Waste(pow: Power, d: real): real {
    Abs(d) * pow(Abs(d))
  }

  /** What a pair of agents loses to its disagreement, over all its edges. */
  function Loss(pow: Power, nodes: seq<Node>, w: Weather): (nat, nat) -> real {
    (i: nat, j: nat) => Fold(Edges(nodes, w, i, j), Waste(pow, ZOf(nodes, i) - ZOf(nodes, j)))
  }

  function Zs(nodes: seq<Node>): nat -> real {
    (i: nat) => ZOf(nodes, i)
  }

  function Lever(pow: Power, nodes: seq<Node>, w: Weather): nat -> real {
    (i: nat) => ZOf(nodes, i) * Terms(pow, nodes, w)(i)
  }

  function Lifted(z: nat -> real, f: (nat, nat) -> real): (nat, nat) -> real {
    (i: nat, j: nat) => z(i) * f(i, j)
  }

  function Spread(z: nat -> real, f: (nat, nat) -> real): (nat, nat) -> real {
    (i: nat, j: nat) => (z(i) - z(j)) * f(i, j)
  }

  /** Weighting an antisymmetric table by rows is half of weighting it by differences. */
  lemma Weighted(z: nat -> real, f: (nat, nat) -> real, n: nat)
    requires forall i: nat, j: nat | i < n && j < n :: f(i, j) == -f(j, i)
    ensures Sum(RowSums(Spread(z, f), n), n) == 2.0 * Sum(RowSums(Lifted(z, f), n), n)
  {
    var g, q := Lifted(z, f), Spread(z, f);
    var k := (i: nat, j: nat) => g(j, i);
    SumSwap(k, n, n);
    forall i: nat | i < n ensures RowSums(q, n)(i) == RowSums(g, n)(i) + RowSums(k, n)(i) {
      forall j: nat | j < n ensures q(i, j) == g(i, j) + k(i, j) {
        assert z(j) * f(j, i) == -(z(j) * f(i, j));
      }
      SumAdd((j: nat) => g(i, j), (j: nat) => k(i, j), (j: nat) => q(i, j), n);
    }
    SumAdd(RowSums(g, n), RowSums(k, n), RowSums(q, n), n);
    forall i: nat | i < n ensures ColumnSums(k, n)(i) == RowSums(g, n)(i) {
      SumEqual((j: nat) => k(j, i), (j: nat) => g(i, j), n);
    }
    SumEqual(ColumnSums(k, n), RowSums(g, n), n);
  }

  lemma {:induction false} SumNonneg(f: nat -> real, n: nat)
    requires forall i: nat | i < n :: f(i) >= 0.0
    ensures Sum(f, n) >= 0.0
  {
    if n > 0 {
      SumNonneg(f, n - 1);
    }
  }

  lemma PairLoss(pow: Power, nodes: seq<Node>, w: Weather, i: nat, j: nat)
    requires Powerful(pow)
    ensures Spread(Zs(nodes), Flow(pow, nodes, w))(i, j) == -Loss(pow, nodes, w)(i, j)
    ensures Loss(pow, nodes, w)(i, j) >= 0.0
  {
    hide Coupling, Edges, Waste, Fold;
    var d, n := ZOf(nodes, i) - ZOf(nodes, j), Edges(nodes, w, i, j);
    CouplingSign(pow, d);
    FoldLoss(n, d, Coupling(pow, d), Waste(pow, d));
  }

  lemma FoldLoss(n: nat, d: real, c: real, p: real)
    requires d * c == -p && p >= 0.0
    ensures d * Fold(n, c) == -Fold(n, p) && Fold(n, p) >= 0.0
  {
    assert d * (n as real * c) == n as real * (d * c);
    MulNonneg(n as real, p);
  }

  /** Dissipation: over a symmetric usable graph the values turn against the consensus terms
      by half of what all pairs lose, which is never negative. */
  lemma TermsDissipate(pow: Power, nodes: seq<Node>, w: Weather, gain: real, dt: real)
    requires Common(nodes, gain, dt) && Symmetric(nodes, w) && Powerful(pow)
    ensures 2.0 * Sum(Lever(pow, nodes, w), |nodes|) == -Sum(RowSums(Loss(pow, nodes, w), |nodes|), |nodes|)
    ensures Sum(Lever(pow, nodes, w), |nodes|) <= 0.0
  {
    hide Symmetric, Flow, Loss, Lever, Powerful, Common, Lifted, Spread;
    var n, flow, loss, z := |nodes|, Flow(pow, nodes, w), Loss(pow, nodes, w), Zs(nodes);
    forall i: nat, j: nat | i < n && j < n ensures flow(i, j) == -flow(j, i) {
      FlowAntisymmetric(pow, nodes, w, i, j);
    }
    Weighted(z, flow, n);
    forall i: nat | i < n ensures Lever(pow, nodes, w)(i) == RowSums(Lifted(z, flow), n)(i) {
      LeverRow(pow, nodes, w, gain, dt, i);
    }
    SumEqual(Lever(pow, nodes, w), RowSums(Lifted(z, flow), n), n);
    forall i: nat, j: nat | i < n && j < n ensures Spread(z, flow)(i, j) == -loss(i, j) && loss(i, j) >= 0.0 {
      PairLoss(pow, nodes, w, i, j);
    }
    Negated(loss, Spread(z, flow), n);
  }

  lemma LeverRow(pow: Power, nodes: seq<Node>, w: Weather, gain: real, dt: real, i: nat)
    requires Common(nodes, gain, dt) && i < |nodes|
    ensures Lever(pow, nodes, w)(i) == RowSums(Lifted(Zs(nodes), Flow(pow, nodes, w)), |nodes|)(i)
  {
    hide Flow, Terms, ZOf;
    var g := Lifted(Zs(nodes), Flow(pow, nodes, w));
    TermIsRow(pow, nodes, w, i);
    SumScale((j: nat) => Flow(pow, nodes, w)(i, j), (j: nat) => g(i, j), ZOf(nodes, i), |nodes|);
  }

  /** The sum of a nonnegative table, and of its negation. */
  lemma Negated(f: (nat, nat) -> real, q: (nat, nat) -> real, n: nat)
    requires forall i: nat, j: nat | i < n && j < n :: q(i, j) == -f(i, j) && f(i, j) >= 0.0
    ensures Sum(RowSums(q, n), n) == -Sum(RowSums(f, n), n) && Sum(RowSums(f, n), n) >= 0.0
  {
    forall i: nat | i < n ensures RowSums(q, n)(i) == -RowSums(f, n)(i) && RowSums(f, n)(i) >= 0.0 {
      SumNegate((j: nat) => f(i, j), (j: nat) => q(i, j), n);
      SumNonneg((j: nat) => f(i, j), n);
    }
    SumNegate(RowSums(f, n), RowSums(q, n), n);
    SumNonneg(RowSums(f, n), n);
  }

  /** One tick moves nothing in total, whatever the disturbances do to the plants. */
  lemma TickConserves(pow: Power, nodes: seq<Node>, w: Weather, gain: real, dt: real)
    requires Common(nodes, gain, dt) && Symmetric(nodes, w)
    ensures Total(Tick(pow, nodes, w)) == Total(nodes) && Common(Tick(pow, nodes, w), gain, dt)
  {
    hide Symmetric, Tick, Terms, Total;
    var n, next := |nodes|, Tick(pow, nodes, w);
    var terms := Terms(pow, nodes, w);
    var moved := (i: nat) => (dt * gain) * terms(i);
    TermsCancel(pow, nodes, w, gain, dt);
    SumScale(terms, moved, dt * gain, n);
    forall i: nat | i < n ensures ZOf(next, i) == ZOf(nodes, i) + moved(i) {
      TickZ(pow, nodes, w, i);
      MovedBy(nodes[i].law.z, nodes[i].law.p, terms(i));
    }
    TickCommon(pow, nodes, w, gain, dt);
    TotalIs(nodes);
    TotalIs(next);
    SumAdd((i: nat) => ZOf(nodes, i), moved, (i: nat) => ZOf(next, i), n);
    assert (dt * gain) * 0.0 == 0.0;
  }

  lemma TotalIs(nodes: seq<Node>)
    ensures Total(nodes) == Sum((i: nat) => ZOf(nodes, i), |nodes|)
  {}

  lemma TickZ(pow: Power, nodes: seq<Node>, w: Weather, i: nat)
    requires i < |nodes| && nodes[i].law.p.period > 0
    ensures ZOf(nodes, i) == nodes[i].law.z
    ensures ZOf(Tick(pow, nodes, w), i)
         == Euler(nodes[i].law.z, nodes[i].law.p.dt, Gi(nodes[i].law.p, Terms(pow, nodes, w)(i)))
  {
    hide Consensus, Euler, Gi, Effort, Rise;
  }

  lemma TickCommon(pow: Power, nodes: seq<Node>, w: Weather, gain: real, dt: real)
    requires Common(nodes, gain, dt)
    ensures Common(Tick(pow, nodes, w), gain, dt)
  {
    hide Consensus, Euler, Gi, Effort, Rise;
  }

  lemma MovedBy(z: real, p: Params, t: real)
    ensures Euler(z, p.dt, Gi(p, t)) == z + (p.dt * p.gain) * t
  {}

  function Run(pow: Power, nodes: seq<Node>, ws: seq<Weather>): (r: seq<Node>)
    ensures |r| == |nodes|
  {
    if ws == [] then nodes else Tick(pow, Run(pow, nodes, ws[..|ws| - 1]), ws[|ws| - 1])
  }

  predicate AlwaysSymmetric(pow: Power, nodes: seq<Node>, ws: seq<Weather>) {
    forall k | 0 <= k < |ws| :: Symmetric(Run(pow, nodes, ws[..k]), ws[k])
  }

  /** Average conservation over every run: links may come and go and disturbances do as
      they like, as long as each tick's usable links are symmetric. */
  lemma {:induction false} RunConserves(pow: Power, nodes: seq<Node>, ws: seq<Weather>, gain: real, dt: real)
    requires Common(nodes, gain, dt) && AlwaysSymmetric(pow, nodes, ws)
    ensures Total(Run(pow, nodes, ws)) == Total(nodes) && Common(Run(pow, nodes, ws), gain, dt)
  {
    hide Tick, Symmetric, Common, Total;
    if ws != [] {
      var k := |ws| - 1;
      forall j | 0 <= j < k ensures Symmetric(Run(pow, nodes, ws[..k][..j]), ws[..k][j]) {
        assert ws[..k][..j] == ws[..j];
      }
      RunConserves(pow, nodes, ws[..k], gain, dt);
      TickConserves(pow, Run(pow, nodes, ws[..k]), ws[k], gain, dt);
    }
  }
}
