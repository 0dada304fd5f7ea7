/** How the scalar law's plant follows its virtual state: the error of one tick, the
    gain that rises while the error is outside the dead-band, and what both do over a
    run under any bounded disturbance.
  */
module Tracking {
  import opened RealMath
  import opened ScalarLaw

  datatype Input = Input(vals: seq<real>, enabled: seq<bool>, nu: real)

  type Inputs = nat -> Input

  function Next(pow: Power, l: Law, u: Input): Law
    requires l.p.period > 0
  {
    Step(pow, l, u.vals, u.enabled, u.nu)
  }

  /** The law after n ticks. */
  function At(pow: Power, l: Law, f: Inputs, n: nat): (r: Law)
    requires l.p.period > 0
    ensures r.p == l.p
  {
    if n == 0 then l else Next(pow, At(pow, l, f, n - 1), f(n - 1))
  }

  function Error(l: Law): real {
    l.x - l.z
  }

  // ---------------------------------------------------------------------------- one tick

  /** Against its own sign by k, and with w. */
  function Thrown(s: real, k: real, w: real): real {
    if s > 0.0 then s - k + w else if s < 0.0 then s + k + w else w
  }

  /** The consensus term cancels: the error moves against its own sign by dt vartheta, and
      with the disturbance. */
  lemma ErrorStep(pow: Power, l: Law, u: Input, k: real, w: real)
    requires l.p.period > 0 && k == l.p.dt * l.vartheta && w == l.p.dt * u.nu
    ensures var n := Next(pow, l, u);
            n.x - n.z == Thrown(l.x - l.z, k, w)
  {
    hide Consensus, Gi, Thrown, Sign;
    var g, s := Gi(l.p, Consensus(pow, l.z, u.vals, u.enabled, |u.vals|)), Sign(l.x - l.z);
    ErrorAlgebra(l.x, l.z, l.p.dt, g, l.vartheta, s, u.nu, k, w);
  }

  lemma ErrorAlgebra(x: real, z: real, dt: real, g: real, v: real, s: real, nu: real, k: real, w: real)
    requires s == Sign(x - z) && k == dt * v && w == dt * nu
    ensures Euler(x, dt, Effort(g, v, x - z) + nu) - Euler(z, dt, g) == Thrown(x - z, k, w)
  {
    assert dt * (g - v * s + nu) == dt * g - dt * (v * s) + dt * nu;
    assert dt * (v * s) == dt * v * s;
  }

  /** The gain rises by dt eta exactly outside the dead-band. */
  lemma GainStep(pow: Power, l: Law, u: Input)
    requires l.p.period > 0
    ensures Next(pow, l, u).vartheta == l.vartheta + if Abs(l.x - l.z) > l.p.delta then l.p.dt * l.p.eta else 0.0
  {
    hide Consensus, Gi, Abs;
    var on := if Abs(l.x - l.z) > l.p.delta then 1.0 else 0.0;
    assert l.p.dt * (l.p.eta * on) == if Abs(l.x - l.z) > l.p.delta then l.p.dt * l.p.eta else 0.0;
  }

  /** An error larger than the kick shrinks by it; a smaller one is thrown across zero, not
      further than the kick. */
  lemma ErrorMagnitude(pow: Power, l: Law, u: Input)
    requires l.p.period > 0 && l.p.dt >= 0.0 && l.vartheta >= 0.0
    ensures Abs(Error(Next(pow, l, u)))
         <= Max(Abs(Error(l)) - l.p.dt * l.vartheta, l.p.dt * l.vartheta) + l.p.dt * Abs(u.nu)
  {
    hide Next, Thrown;
    var k, w := l.p.dt * l.vartheta, l.p.dt * u.nu;
    ErrorStep(pow, l, u, k, w);
    MulNonneg(l.p.dt, l.vartheta);
    AbsMul(l.p.dt, u.nu);
    ThrownAcross(l.x - l.z, k, w);
  }

  lemma ThrownAcross(s: real, k: real, w: real)
    requires k >= 0.0
    ensures Abs(Thrown(s, k, w)) <= Max(Abs(s) - k, k) + Abs(w)
  {}

  // ---------------------------------------------------------------------------- the band

  /** Every error in the band, under every push up to b, is thrown back into it. */
  ghost predicate Absorbs(delta: real, k: real, b: real) {
    forall s: real, w: real | Abs(s) <= delta && Abs(w) <= b :: Abs(Thrown(s, k, w)) <= delta
  }

  /** The dead-band keeps the error exactly when the gain outweighs the disturbance and the
      two together cannot throw it across the band. */
  lemma AbsorbsIff(delta: real, k: real, b: real)
    requires delta > 0.0 && k >= 0.0 && b >= 0.0
    ensures Absorbs(delta, k, b) <==> b <= k && k + b <= delta
  {
    if Absorbs(delta, k, b) {
      assert Abs(Thrown(delta, k, b)) <= delta;
      var s := Min(delta, (k + b - delta) / 2.0);
      assert k + b > delta ==> Abs(s) <= delta && Abs(Thrown(s, k, -b)) > delta;
    }
  }

  lemma PushBound(dt: real, nu: real, N: real)
    requires dt >= 0.0 && Abs(nu) <= N
    ensures Abs(dt * nu) <= dt * N
  {
    MulMono(dt, nu, N);
    MulMono(dt, -N, nu);
  }

  // --------------------------------------------------------------------------- whole runs

  ghost predicate Disturbed(f: Inputs, N: real) {
    forall k: nat :: Abs(f(k).nu) <= N
  }

  predicate Outside(l: Law) {
    Abs(Error(l)) > l.p.delta
  }

  /** The ticks that raise the gain. */
  function Rises(pow: Power, l: Law, f: Inputs, n: nat): nat
    requires l.p.period > 0
  {
    if n == 0 then 0 else Rises(pow, l, f, n - 1) + if Outside(At(pow, l, f, n - 1)) then 1 else 0
  }

  function Times(n: nat, x: real): real {
    n as real * x
  }

  /** The gain after r rises. */
  function GainAfter(l: Law, r: nat): real {
    l.vartheta + Times(r, RiseSize(l))
  }

  function RiseSize(l: Law): real {
    l.p.dt * l.p.eta
  }

  /** What one more rise takes off the excess of every later tick. */
  function Bite(l: Law): real {
    l.p.dt * RiseSize(l)
  }

  lemma BitePositive(l: Law)
    requires l.p.dt > 0.0 && l.p.eta > 0.0
    ensures RiseSize(l) > 0.0 && Bite(l) > 0.0
  {
    hide RiseSize;
    RiseIs(l);
    MulPos(l.p.dt, l.p.eta);
    MulPos(l.p.dt, RiseSize(l));
  }

  lemma GainAfterNext(l: Law, r: nat)
    ensures GainAfter(l, 0) == l.vartheta && GainAfter(l, r + 1) == GainAfter(l, r) + RiseSize(l)
  {
    hide RiseSize, Times;
    OneMore(r, RiseSize(l));
  }

  /** The gain is its start plus dt eta for every tick outside the dead-band. */
  lemma {:induction false} GainAt(pow: Power, l: Law, f: Inputs, n: nat)
    requires l.p.period > 0
    ensures At(pow, l, f, n).vartheta == GainAfter(l, Rises(pow, l, f, n))
  {
    hide Next, GainAfter, Abs, Error;
    GainAfterNext(l, 0);
    if n > 0 {
      GainAt(pow, l, f, n - 1);
      GainStep(pow, At(pow, l, f, n - 1), f(n - 1));
      GainAfterNext(l, Rises(pow, l, f, n - 1));
      OutsideIs(At(pow, l, f, n - 1));
    }
  }

  lemma OutsideIs(l: Law)
    ensures Outside(l) <==> Abs(l.x - l.z) > l.p.delta
  {}

  /** How far outside the dead-band. */
  function Excess(l: Law): real {
    Max(Abs(Error(l)) - l.p.delta, 0.0)
  }

  /** What a tick can add to the excess, at most: dt times the disturbance less the gain. */
  function Gap(l: Law, N: real, r: nat): real {
    l.p.dt * (N - GainAfter(l, r))
  }

  function Worst(l: Law, N: real): real {
    Max(Gap(l, N, 0), 0.0)
  }

  /** The most excess there can be when the gain comes to outweigh the disturbance. */
  function Budget(l: Law, N: real, n1: nat): real {
    Max(Excess(l), Worst(l, N)) + Times(n1, Worst(l, N))
  }

  function Triangle(n: nat): nat {
    if n == 0 then 0 else Triangle(n - 1) + (n - 1)
  }

  /** The i-th rise after that takes i steps of dt^2 eta off it. */
  function Spent(l: Law, i: nat): real {
    Times(Triangle(i), Bite(l))
  }

  predicate Sane(l: Law, N: real) {
    l.p.period > 0 && l.p.dt > 0.0 && l.p.eta > 0.0 && l.vartheta >= 0.0 && N >= 0.0 && l.p.delta >= 0.0
  }

  /** n1 rises outweigh the disturbance, n2 more spend the excess, and the gain is then
      still too small to throw the error across the band. */
  predicate Enough(l: Law, N: real, n1: nat, n2: nat) {
    && N <= GainAfter(l, n1)
    && Budget(l, N, n1) <= Spent(l, n2)
    && l.p.dt * GainAfter(l, n1 + n2) + l.p.dt * N <= l.p.delta
  }

  /** What r rises allow the excess to be. */
  predicate Within(l: Law, N: real, n1: nat, n2: nat, r: nat, e: real) {
    && r <= n1 + n2 && e >= 0.0
    && (r <= n1 ==> e <= Max(Excess(l), Worst(l, N)) + Times(r, Worst(l, N)))
    && (r >= n1 ==> e <= Max(Budget(l, N, n1) - Spent(l, r - n1), 0.0))
  }

  lemma GainMono(l: Law, N: real, i: nat, j: nat)
    requires Sane(l, N) && i <= j
    ensures GainAfter(l, i) <= GainAfter(l, j) && RiseSize(l) > 0.0
    ensures GainAfter(l, j) == GainAfter(l, i) + Times(j - i, RiseSize(l))
  {
    hide RiseSize, Times;
    RiseIs(l);
    MulPos(l.p.dt, l.p.eta);
    Difference(i, j, RiseSize(l));
  }

  lemma Difference(i: nat, j: nat, g: real)
    requires i <= j
    ensures Times(j, g) == Times(i, g) + Times(j - i, g)
    ensures g >= 0.0 ==> Times(j - i, g) >= 0.0
  {
    if g >= 0.0 {
      MulNonneg((j - i) as real, g);
    }
  }

  /** The gap after i rises beyond the first n1 is at most -i dt^2 eta. */
  lemma GapBound(l: Law, N: real, n1: nat, r: nat)
    requires Sane(l, N)
    ensures Gap(l, N, r) <= Worst(l, N)
    ensures r >= n1 && N <= GainAfter(l, n1) ==> Gap(l, N, r) <= Spent(l, r - n1) - Spent(l, r - n1 + 1)
  {
    hide GainAfter, RiseSize, Times, Spent, Bite;
    BiteIs(l);
    GainMono(l, N, 0, r);
    MulMono(l.p.dt, N - GainAfter(l, r), N - GainAfter(l, 0));
    if r >= n1 && N <= GainAfter(l, n1) {
      GainMono(l, N, n1, r);
      var i := r - n1;
      MulMono(l.p.dt, N - GainAfter(l, r), -Times(i, RiseSize(l)));
      SpentNext(l, i);
      Scaled(l.p.dt, i, RiseSize(l), Bite(l));
    }
  }

  lemma BiteIs(l: Law)
    ensures Bite(l) == l.p.dt * RiseSize(l)
  {}

  lemma Scaled(dt: real, i: nat, g: real, c: real)
    requires c == dt * g
    ensures dt * -Times(i, g) == -Times(i, c)
  {
    assert dt * (i as real * g) == i as real * c;
  }

  lemma SpentNext(l: Law, i: nat)
    ensures Spent(l, i + 1) == Spent(l, i) + Times(i, Bite(l))
  {
    hide Bite, Times;
    Difference(Triangle(i), Triangle(i + 1), Bite(l));
    assert Triangle(i + 1) - Triangle(i) == i;
  }

  /** One tick's bound keeps what the rises allow. */
  lemma WithinStep(l: Law, N: real, n1: nat, n2: nat, r: nat, e: real, e': real)
    requires Sane(l, N) && Enough(l, N, n1, n2) && Within(l, N, n1, n2, r, e)
    requires 0.0 <= e' <= Max(e + Gap(l, N, r), 0.0)
    ensures Within(l, N, n1, n2, if e > 0.0 then r + 1 else r, e')
  {
    hide GainAfter, Gap, Spent, Excess, Worst, Times, Budget;
    GapBound(l, N, n1, r);
    WorstNonneg(l, N);
    SpentZero(l);
    var w, m := Worst(l, N), Max(Excess(l), Worst(l, N));
    OneMore(r, w);
    if r < n1 {
      BudgetAt(l, N, n1, m);
      if e > 0.0 {
        assert e' <= m + Times(r + 1, w);
        if r + 1 == n1 {
          assert Times(r + 1, w) == Times(n1, w) && Spent(l, r + 1 - n1) == 0.0;
        }
      }
    } else {
      SpentMono(l, N, r - n1);
      if e > 0.0 {
        Overspent(l, N, n1, n2, r, e);
        assert r + 1 - n1 == (r - n1) + 1;
      }
    }
  }

  lemma BudgetAt(l: Law, N: real, n1: nat, m: real)
    requires m == Max(Excess(l), Worst(l, N))
    ensures Budget(l, N, n1) == m + Times(n1, Worst(l, N))
  {}

  lemma SpentMono(l: Law, N: real, i: nat)
    requires Sane(l, N)
    ensures Spent(l, i) <= Spent(l, i + 1)
  {
    hide Spent, Bite, Times;
    BitePositive(l);
    OneMore(i, Bite(l));
    SpentNext(l, i);
  }

  lemma SpentZero(l: Law)
    ensures Spent(l, 0) == 0.0
  {}

  lemma WorstNonneg(l: Law, N: real)
    ensures Worst(l, N) >= 0.0 && Excess(l) >= 0.0
  {}

  lemma OneMore(r: nat, w: real)
    ensures Times(0, w) == 0.0 && Times(r + 1, w) == Times(r, w) + w
    ensures w >= 0.0 ==> Times(r, w) >= 0.0
  {
    if w >= 0.0 {
      MulNonneg(r as real, w);
    }
  }

  lemma Overspent(l: Law, N: real, n1: nat, n2: nat, r: nat, e: real)
    requires Sane(l, N) && Enough(l, N, n1, n2) && Within(l, N, n1, n2, r, e) && r >= n1 && e > 0.0
    ensures r < n1 + n2
  {}

  /** The excess of one tick, while the band is wide enough for the kick. */
  lemma ExcessStep(pow: Power, l: Law, u: Input, N: real)
    requires l.p.period > 0 && l.p.dt > 0.0 && l.vartheta >= 0.0 && l.p.delta >= 0.0 && Abs(u.nu) <= N
    requires l.p.dt * l.vartheta + l.p.dt * N <= l.p.delta
    ensures Excess(Next(pow, l, u)) <= Max(Excess(l) + l.p.dt * (N - l.vartheta), 0.0)
  {
    hide Next, Thrown;
    var k, w := l.p.dt * l.vartheta, l.p.dt * u.nu;
    ErrorStep(pow, l, u, k, w);
    NextParams(pow, l, u);
    PushBound(l.p.dt, u.nu, N);
    MulNonneg(l.p.dt, l.vartheta);
    ThrownAcross(l.x - l.z, k, w);
    GapSplit(l.p.dt, N, l.vartheta);
    ExcessAlgebra(Abs(Error(l)), Abs(Error(Next(pow, l, u))), k, Abs(w), l.p.dt * N, l.p.delta);
  }

  lemma GapSplit(dt: real, N: real, v: real)
    ensures dt * (N - v) == dt * N - dt * v
  {}

  lemma ExcessAlgebra(s: real, s': real, k: real, w: real, b: real, delta: real)
    requires s' <= Max(s - k, k) + w && w <= b && k + b <= delta
    ensures Max(s' - delta, 0.0) <= Max(Max(s - delta, 0.0) + (b - k), 0.0)
  {}

  lemma NextParams(pow: Power, l: Law, u: Input)
    requires l.p.period > 0
    ensures Next(pow, l, u).p == l.p
  {}

  /** Over any run under any disturbance up to N. */
  lemma {:induction false} RunWithin(pow: Power, l: Law, f: Inputs, N: real, n1: nat, n2: nat, n: nat)
    requires Sane(l, N) && Enough(l, N, n1, n2) && Disturbed(f, N)
    ensures Within(l, N, n1, n2, Rises(pow, l, f, n), Excess(At(pow, l, f, n)))
  {
    hide Next, GainAfter, Error, Within, Enough, Disturbed, Abs;
    if n == 0 {
      WithinStart(l, N, n1, n2);
    } else {
      RunWithin(pow, l, f, N, n1, n2, n - 1);
      var was, r := At(pow, l, f, n - 1), Rises(pow, l, f, n - 1);
      GainAt(pow, l, f, n - 1);
      AllowedRises(l, N, n1, n2, r, Excess(was));
      KickFits(l, N, n1, n2, r, was);
      DisturbedAt(f, N, n - 1);
      ExcessStep(pow, was, f(n - 1), N);
      ExcessIs(was);
      ExcessIs(Next(pow, was, f(n - 1)));
      GapIs(l, N, r, was);
      WithinStep(l, N, n1, n2, r, Excess(was), Excess(Next(pow, was, f(n - 1))));
    }
  }

  lemma AllowedRises(l: Law, N: real, n1: nat, n2: nat, r: nat, e: real)
    requires Within(l, N, n1, n2, r, e)
    ensures r <= n1 + n2
  {}

  lemma DisturbedAt(f: Inputs, N: real, k: nat)
    requires Disturbed(f, N)
    ensures Abs(f(k).nu) <= N
  {}

  lemma ExcessIs(l: Law)
    ensures Excess(l) >= 0.0 && (Excess(l) > 0.0 <==> Outside(l))
  {}

  lemma GapIs(l: Law, N: real, r: nat, was: Law)
    requires was.p == l.p && was.vartheta == GainAfter(l, r)
    ensures was.p.dt * (N - was.vartheta) == Gap(l, N, r)
  {}

  lemma WithinStart(l: Law, N: real, n1: nat, n2: nat)
    requires Sane(l, N)
    ensures Within(l, N, n1, n2, 0, Excess(l))
  {
    hide Excess, Worst, Times;
    WorstNonneg(l, N);
    SpentZero(l);
    OneMore(0, Worst(l, N));
  }

  lemma KickFits(l: Law, N: real, n1: nat, n2: nat, r: nat, was: Law)
    requires Sane(l, N) && Enough(l, N, n1, n2) && r <= n1 + n2 && was.p == l.p && was.vartheta == GainAfter(l, r)
    ensures was.vartheta >= 0.0 && was.p.dt * was.vartheta + was.p.dt * N <= was.p.delta
  {
    hide GainAfter, Budget, Spent;
    GainAfterNext(l, 0);
    GainMono(l, N, 0, r);
    GainMono(l, N, r, n1 + n2);
    MulMono(l.p.dt, GainAfter(l, r), GainAfter(l, n1 + n2));
  }

  // ------------------------------------------------------------------------- the theorems

  /** With a wide enough dead-band, whatever the disturbance and however long the run: the gain
      rises at most n1 + n2 times, which is also how often the error is outside the band, and
      the error never exceeds the band by more than the budget. */
  lemma RisesBounded(pow: Power, l: Law, f: Inputs, N: real, n1: nat, n2: nat, n: nat)
    requires Sane(l, N) && Enough(l, N, n1, n2) && Disturbed(f, N)
    ensures Rises(pow, l, f, n) <= n1 + n2
    ensures Abs(At(pow, l, f, n).x - At(pow, l, f, n).z) <= l.p.delta + Budget(l, N, n1)
    ensures At(pow, l, f, n).vartheta == GainAfter(l, Rises(pow, l, f, n))
  {
    hide Enough, Within, Budget, GainAfter, At, Rises, Disturbed, Excess, Abs;
    RunWithin(pow, l, f, N, n1, n2, n);
    GainAt(pow, l, f, n);
    WithinBudget(l, N, n1, n2, Rises(pow, l, f, n), Excess(At(pow, l, f, n)));
    ExcessBand(At(pow, l, f, n));
  }

  lemma ExcessBand(l: Law)
    ensures Abs(l.x - l.z) <= l.p.delta + Excess(l)
  {}

  lemma WithinBudget(l: Law, N: real, n1: nat, n2: nat, r: nat, e: real)
    requires Sane(l, N) && Within(l, N, n1, n2, r, e)
    ensures r <= n1 + n2 && e <= Budget(l, N, n1)
  {
    hide Budget, Spent, Worst, Excess;
    BudgetCovers(l, N, n1, r);
    if r >= n1 {
      SpentNonneg(l, N, r - n1);
    }
  }

  lemma SpentNonneg(l: Law, N: real, i: nat)
    requires Sane(l, N)
    ensures Spent(l, i) >= 0.0
  {
    hide Bite, Times;
    BitePositive(l);
    OneMore(Triangle(i), Bite(l));
  }

  lemma RiseIs(l: Law)
    ensures RiseSize(l) == l.p.dt * l.p.eta
  {}

  lemma BudgetCovers(l: Law, N: real, n1: nat, r: nat)
    ensures Budget(l, N, n1) >= 0.0
    ensures r <= n1 ==> Max(Excess(l), Worst(l, N)) + Times(r, Worst(l, N)) <= Budget(l, N, n1)
  {
    hide Excess, Worst, Times;
    WorstNonneg(l, N);
    var m := Max(Excess(l), Worst(l, N));
    BudgetAt(l, N, n1, m);
    OneMore(n1, Worst(l, N));
    if r <= n1 {
      Difference(r, n1, Worst(l, N));
    }
  }

  /** Rises until the gain outweighs the disturbance. */
  function Outweighing(l: Law, N: real): nat
    requires Sane(l, N) && RiseSize(l) > 0.0
  {
    if N <= l.vartheta then 0
    else DivPos(N - l.vartheta, RiseSize(l)); ((N - l.vartheta) / RiseSize(l)).Floor + 1
  }

  /** Rises that then spend a budget b. */
  function Spending(c: real, b: real): nat
    requires c > 0.0 && b >= 0.0
  {
    DivNonneg(b, c);
    (b / c).Floor + 2
  }

  lemma OutweighingEnough(l: Law, N: real)
    requires Sane(l, N) && RiseSize(l) > 0.0
    ensures N <= GainAfter(l, Outweighing(l, N))
  {
    hide RiseSize;
    GainAfterNext(l, 0);
    if N > l.vartheta {
      RoundedUp(N - l.vartheta, RiseSize(l), (N - l.vartheta) / RiseSize(l));
    }
  }

  lemma RoundedUp(d: real, g: real, q: real)
    requires d > 0.0 && g > 0.0 && q == d / g
    ensures q >= 0.0 && d <= Times(q.Floor + 1, g)
  {
    DivPos(d, g);
    DivMul(d, g);
    MulMono(g, q, (q.Floor + 1) as real);
  }

  lemma {:induction false} TriangleAtLeast(n: nat)
    requires n >= 2
    ensures Triangle(n) >= n - 1
  {
    if n > 2 {
      TriangleAtLeast(n - 1);
    }
  }

  lemma SpendingEnough(c: real, b: real)
    requires c > 0.0 && b >= 0.0
    ensures b <= Times(Triangle(Spending(c, b)), c)
  {
    DivNonneg(b, c);
    var q := b / c;
    var n := q.Floor + 2;
    DivMul(b, c);
    TriangleAtLeast(n);
    MulMono(c, q, Triangle(n) as real);
  }

  /** With the numbers written out, a caller can check the one condition: the dead-band holds
      dt times the last gain and the disturbance. */
  lemma ExplicitRises(pow: Power, l: Law, f: Inputs, N: real, n: nat)
    requires Sane(l, N) && Disturbed(f, N)
    ensures RiseSize(l) > 0.0 && Bite(l) > 0.0
    ensures var n1 := Outweighing(l, N);
            Budget(l, N, n1) >= 0.0
            && var n2 := Spending(Bite(l), Budget(l, N, n1));
            l.p.dt * GainAfter(l, n1 + n2) + l.p.dt * N <= l.p.delta
            ==> Rises(pow, l, f, n) <= n1 + n2
  {
    hide RiseSize, Bite, GainAfter, Budget, Outweighing, Spending, Disturbed, Rises, At, Triangle;
    BitePositive(l);
    var n1 := Outweighing(l, N);
    BudgetCovers(l, N, n1, 0);
    var n2 := Spending(Bite(l), Budget(l, N, n1));
    OutweighingEnough(l, N);
    SpendingEnough(Bite(l), Budget(l, N, n1));
    if l.p.dt * GainAfter(l, n1 + n2) + l.p.dt * N <= l.p.delta {
      RisesBounded(pow, l, f, N, n1, n2, n);
    }
  }

  ghost predicate Settled(pow: Power, l: Law, f: Inputs, from: nat)
    requires l.p.period > 0
  {
    forall k: nat | k >= from :: Quiet(pow, l, f, k, from)
  }

  predicate Quiet(pow: Power, l: Law, f: Inputs, k: nat, from: nat)
    requires l.p.period > 0
  {
    !Outside(At(pow, l, f, k)) && At(pow, l, f, k).vartheta == At(pow, l, f, from).vartheta
  }

  /** And from some tick on the error stays within the dead-band and the gain stands still. */
  lemma Settles(pow: Power, l: Law, f: Inputs, N: real, n1: nat, n2: nat)
    requires Sane(l, N) && Enough(l, N, n1, n2) && Disturbed(f, N)
    ensures exists from: nat :: Settled(pow, l, f, from)
  {
    hide Enough, Disturbed, Rises, At, Budget, GainAfter;
    forall k: nat ensures Rises(pow, l, f, k) <= n1 + n2 {
      RisesBounded(pow, l, f, N, n1, n2, k);
    }
    SettlesWithin(pow, l, f, 0, n1 + n2, n1 + n2);
  }

  lemma {:induction false} RisesMono(pow: Power, l: Law, f: Inputs, i: nat, j: nat)
    requires l.p.period > 0 && i <= j
    ensures Rises(pow, l, f, i) <= Rises(pow, l, f, j)
  {
    if i < j {
      RisesMono(pow, l, f, i, j - 1);
    }
  }

  lemma {:induction false} QuietKeeps(pow: Power, l: Law, f: Inputs, from: nat, k: nat)
    requires l.p.period > 0 && from <= k && forall j: nat | from <= j < k :: !Outside(At(pow, l, f, j))
    ensures Rises(pow, l, f, k) == Rises(pow, l, f, from)
  {
    hide Outside, At;
    if from < k {
      QuietKeeps(pow, l, f, from, k - 1);
    }
  }

  lemma {:induction false} SettlesWithin(pow: Power, l: Law, f: Inputs, from: nat, bound: nat, budget: nat)
    requires l.p.period > 0 && forall k: nat :: Rises(pow, l, f, k) <= bound
    requires Rises(pow, l, f, from) + budget >= bound
    ensures exists k: nat :: Settled(pow, l, f, k)
    decreases budget
  {
    hide Outside, At;
    if k: nat :| k >= from && Outside(At(pow, l, f, k)) {
      RisesMono(pow, l, f, from, k);
      assert Rises(pow, l, f, k + 1) == Rises(pow, l, f, k) + 1;
      assert Rises(pow, l, f, k + 1) <= bound;
      SettlesWithin(pow, l, f, k + 1, bound, budget - 1);
    } else {
      forall k: nat | k >= from ensures Quiet(pow, l, f, k, from) {
        QuietKeeps(pow, l, f, from, k);
        GainAt(pow, l, f, k);
        GainAt(pow, l, f, from);
      }
      assert Settled(pow, l, f, from);
    }
  }

  // ------------------------------------------------------------- without a wide enough band

  /** No neighbours and no disturbance. */
  function Undisturbed(): Inputs {
    (k: nat) => Input([], [], 0.0)
  }

  /** The error after n ticks of chatter: thrown across zero and back, one step c further
      out every second tick. */
  function Chatter(s: real, c: real, n: nat): real {
    if n % 2 == 0 then s + (n / 2) as real * c else -(s + (n / 2) as real * c)
  }

  /** Whatever the threshold, a gain that throws the error to the mirror image of where it
      was keeps it outside for ever, with nothing disturbing it: every tick raises the gain
      and the error grows without bound. */
  lemma {:induction false} ChattersForEver(pow: Power, l: Law, n: nat)
    requires Sane(l, 0.0) && l.x - l.z > l.p.delta && l.p.dt * l.vartheta == 2.0 * (l.x - l.z)
    ensures var m := At(pow, l, Undisturbed(), n);
            && m.x - m.z == Chatter(l.x - l.z, l.p.dt * (l.p.dt * l.p.eta), n)
            && Rises(pow, l, Undisturbed(), n) == n
            && m.vartheta == l.vartheta + n as real * (l.p.dt * l.p.eta)
  {
    hide Next, Abs, Chatter, Thrown, GainAfter;
    var f, s, c := Undisturbed(), l.x - l.z, l.p.dt * (l.p.dt * l.p.eta);
    if n == 0 {
      ChatterStart(s, c);
    } else {
      ChattersForEver(pow, l, n - 1);
      var was := At(pow, l, f, n - 1);
      var k := was.p.dt * was.vartheta;
      ErrorStep(pow, was, f(n - 1), k, 0.0);
      KickIs(l.p.dt, l.vartheta, l.p.dt * l.p.eta, s, c, n - 1, k);
      PositiveStep(l);
      ChatterNext(s, c, n - 1, k);
      ChatterOutside(s, c, n - 1, l.p.delta);
      GainAt(pow, l, f, n);
    }
    GainAt(pow, l, f, n);
    GainForm(l, n);
  }

  lemma GainForm(l: Law, n: nat)
    ensures GainAfter(l, n) == l.vartheta + n as real * (l.p.dt * l.p.eta)
  {
    RiseIs(l);
  }

  lemma PositiveStep(l: Law)
    requires l.p.dt > 0.0 && l.p.eta > 0.0
    ensures l.p.dt * (l.p.dt * l.p.eta) > 0.0
  {
    MulPos(l.p.dt, l.p.eta);
    MulPos(l.p.dt, l.p.dt * l.p.eta);
  }

  lemma ChatterStart(s: real, c: real)
    ensures Chatter(s, c, 0) == s
  {}

  lemma KickIs(dt: real, v: real, g: real, s: real, c: real, n: nat, k: real)
    requires dt * v == 2.0 * s && c == dt * g && k == dt * (v + n as real * g)
    ensures k == 2.0 * s + n as real * c
  {
    assert dt * (n as real * g) == n as real * (dt * g);
  }

  lemma ChatterNext(s: real, c: real, n: nat, k: real)
    requires s > 0.0 && c > 0.0 && k == 2.0 * s + n as real * c
    ensures Thrown(Chatter(s, c, n), k, 0.0) == Chatter(s, c, n + 1)
  {
    var h := (n / 2) as real;
    MulNonneg(h, c);
    if n % 2 == 0 {
      assert n as real == h + h && (n + 1) / 2 == n / 2;
      assert (h + h) * c == h * c + h * c;
    } else {
      assert n as real == h + h + 1.0 && (n + 1) / 2 == n / 2 + 1;
      assert (h + h + 1.0) * c == h * c + h * c + c;
      assert (h + 1.0) * c == h * c + c;
    }
  }

  lemma ChatterOutside(s: real, c: real, n: nat, delta: real)
    requires s > delta >= 0.0 && c > 0.0
    ensures Abs(Chatter(s, c, n)) > delta
  {
    MulNonneg((n / 2) as real, c);
  }
}
