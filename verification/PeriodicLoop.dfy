/** The periodic loops of an agent: deadlines on a fixed grid, late iterations
    recorded, and whole missed periods skipped rather than replayed.
  */
module PeriodicLoop {
  import opened RealMath
  import Gf2

  /** What a clock does to the loop: how far past the requested instant sleep k
      returns, and how long body k takes. */
  datatype Env = Env(lag: nat -> real, work: nat -> real)

  datatype Timing = Timing(period: real, iterations: nat, late: nat, maxError: real, totalError: real, overruns: nat)

  function NewTiming(period: real): Timing {
    Timing(period, 0, 0, 0.0, 0.0, 0)
  }

  function Record(t: Timing, error: real, threshold: real): Timing {
    Timing(t.period, t.iterations + 1, t.late + (if error > threshold then 1 else 0), Max(error, t.maxError),
           t.totalError + error, t.overruns + if error > t.period then 1 else 0)
  }

  /** How long an iteration sleeps: to its deadline, but at least a tenth of a period. */
  function Delay(next: real, top: real, p: real): real {
    Max(0.1 * p, next - top)
  }

  /** Slots given up because the loop is behind by more than a period. */
  function Missed(next: real, now: real, p: real): nat
    requires p > 0.0
  {
    if next < now then FloorQuotient(now - next, p) + 1 else 0
  }

  function FloorQuotient(x: real, p: real): nat
    requires x >= 0.0 && p > 0.0
  {
    DivNonneg(x, p);
    (x / p).Floor
  }

  function Following(next: real, now: real, p: real): real
    requires p > 0.0
  {
    next + p + Grid(p, Missed(next + p, now, p))
  }

  /** n periods. */
  function Grid(p: real, n: nat): real {
    n as real * p
  }

  /** When iteration k goes to sleep, when it runs, and the deadline it runs for. */
  function Top(t0: real, p: real, e: Env, k: nat): real
    requires p > 0.0
    decreases k, 0
  {
    if k == 0 then t0 else Now(t0, p, e, k - 1) + e.work(k - 1)
  }

  function Now(t0: real, p: real, e: Env, k: nat): real
    requires p > 0.0
    decreases k, 1
  {
    Top(t0, p, e, k) + Delay(Deadline(t0, p, e, k), Top(t0, p, e, k), p) + e.lag(k)
  }

  function Deadline(t0: real, p: real, e: Env, k: nat): real
    requires p > 0.0
    decreases k, 0
  {
    if k == 0 then t0 + p else Following(Deadline(t0, p, e, k - 1), Now(t0, p, e, k - 1), p)
  }

  /** Slots skipped by the first k iterations. */
  function Skipped(t0: real, p: real, e: Env, k: nat): nat
    requires p > 0.0
  {
    if k == 0 then 0
    else Skipped(t0, p, e, k - 1) + Missed(Deadline(t0, p, e, k - 1) + p, Now(t0, p, e, k - 1), p)
  }

  /** Iterations that skip at least one slot. */
  function Skips(t0: real, p: real, e: Env, k: nat): nat
    requires p > 0.0
  {
    if k == 0 then 0
    else Skips(t0, p, e, k - 1) + if Missed(Deadline(t0, p, e, k - 1) + p, Now(t0, p, e, k - 1), p) > 0 then 1 else 0
  }

  /** The grid slot iteration k runs in. */
  function Slot(t0: real, p: real, e: Env, k: nat): nat
    requires p > 0.0
  {
    k + Skipped(t0, p, e, k)
  }

  function TimingAt(t0: real, p: real, e: Env, k: nat): Timing
    requires p > 0.0
  {
    if k == 0 then NewTiming(p)
    else Record(TimingAt(t0, p, e, k - 1), Max(0.0, Now(t0, p, e, k - 1) - Deadline(t0, p, e, k - 1)), 0.1 * p)
  }

  /** The clock never wakes a sleeper early and never runs backwards. */
  ghost predicate Honest(e: Env) {
    forall j: nat :: e.lag(j) >= 0.0 && e.work(j) >= 0.0
  }

  // ------------------------------------------------------------------- one iteration

  lemma FloorRange(x: real, p: real)
    requires x >= 0.0 && p > 0.0
    ensures Grid(p, FloorQuotient(x, p)) <= x < Grid(p, FloorQuotient(x, p) + 1)
  {
    DivNonneg(x, p);
    DivMul(x, p);
    var q, n := x / p, FloorQuotient(x, p);
    assert n as real <= q < (n + 1) as real;
    Between(n as real, q, (n + 1) as real, p, x);
  }

  lemma Between(lo: real, q: real, hi: real, p: real, x: real)
    requires lo <= q < hi && p > 0.0 && q * p == x
    ensures lo * p <= x < hi * p
  {
    MulMono(p, lo, q);
    MulPos(p, hi - q);
  }

  lemma GridStep(p: real, n: nat)
    ensures Grid(p, n + 1) == Grid(p, n) + p
    ensures Grid(p, 0) == 0.0
  {
    assert (n + 1) as real == n as real + 1.0;
  }

  /** However late the iteration ran, the next deadline is within one period ahead. */
  lemma FollowingWithin(next: real, now: real, p: real)
    requires p > 0.0 && next <= now
    ensures now <= Following(next, now, p) <= now + p
    ensures Missed(next + p, now, p) > 0 <==> now - next > p
  {
    hide Grid, FloorQuotient;
    GridStep(p, 0);
    if next + p < now {
      FloorRange(now - (next + p), p);
      GridStep(p, FloorQuotient(now - (next + p), p));
    }
  }

  lemma GridSum(p: real, a: nat, b: nat)
    ensures Grid(p, a) + p + Grid(p, b) == Grid(p, a + 1 + b)
  {
    assert (a + 1 + b) as real == a as real + 1.0 + b as real;
  }

  // ------------------------------------------------------------------------ whole runs

  /** No drift: every deadline is on the grid of the first, whatever ran late before;
      the deadline an iteration leaves is within a period of when it ran; every slot up to
      it was run or skipped, once; and the overruns counted are the iterations that skipped. */
  lemma {:induction false} DriftFree(t0: real, p: real, e: Env, k: nat)
    requires p > 0.0 && Honest(e)
    ensures Deadline(t0, p, e, k) == t0 + p + Grid(p, Slot(t0, p, e, k))
    ensures k > 0 ==> Now(t0, p, e, k - 1) <= Deadline(t0, p, e, k) <= Now(t0, p, e, k - 1) + p
    ensures Now(t0, p, e, k) >= Deadline(t0, p, e, k)
    ensures k > 0 ==> Slot(t0, p, e, k) > Slot(t0, p, e, k - 1)
    ensures TimingAt(t0, p, e, k).iterations == k && TimingAt(t0, p, e, k).period == p
    ensures TimingAt(t0, p, e, k).overruns == Skips(t0, p, e, k)
  {
    hide Grid, Missed, Following, Delay, Deadline, Skipped, Skips, TimingAt, Now;
    RunsOnTime(t0, p, e, k);
    if k == 0 {
      Starts(t0, p, e);
      GridStep(p, 0);
    } else {
      DriftFree(t0, p, e, k - 1);
      Continues(t0, p, e, k - 1);
      var next, now := Deadline(t0, p, e, k - 1), Now(t0, p, e, k - 1);
      FollowingWithin(next, now, p);
      FollowingIs(next, now, p);
      GridSum(p, Slot(t0, p, e, k - 1), Missed(next + p, now, p));
    }
  }

  lemma Starts(t0: real, p: real, e: Env)
    requires p > 0.0
    ensures Deadline(t0, p, e, 0) == t0 + p && Skipped(t0, p, e, 0) == 0 && Skips(t0, p, e, 0) == 0
    ensures TimingAt(t0, p, e, 0) == NewTiming(p)
  {}

  lemma Continues(t0: real, p: real, e: Env, k: nat)
    requires p > 0.0
    ensures var next, now := Deadline(t0, p, e, k), Now(t0, p, e, k);
            var missed := Missed(next + p, now, p);
            && Deadline(t0, p, e, k + 1) == Following(next, now, p)
            && Skipped(t0, p, e, k + 1) == Skipped(t0, p, e, k) + missed
            && Skips(t0, p, e, k + 1) == Skips(t0, p, e, k) + (if missed > 0 then 1 else 0)
            && TimingAt(t0, p, e, k + 1) == Record(TimingAt(t0, p, e, k), Max(0.0, now - next), 0.1 * p)
  {
    hide Missed, Following, Record, Now;
  }

  lemma RunsOnTime(t0: real, p: real, e: Env, k: nat)
    requires p > 0.0 && Honest(e)
    ensures Now(t0, p, e, k) >= Deadline(t0, p, e, k)
    ensures Now(t0, p, e, k) >= Top(t0, p, e, k) + 0.1 * p
  {
    hide Deadline, Top;
  }

  lemma FollowingIs(next: real, now: real, p: real)
    requires p > 0.0
    ensures Following(next, now, p) == next + p + Grid(p, Missed(next + p, now, p))
  {}

  /** No slot runs twice, and slots run in order. */
  lemma {:induction false} SlotsIncrease(t0: real, p: real, e: Env, i: nat, j: nat)
    requires p > 0.0 && i < j && Honest(e)
    ensures Slot(t0, p, e, i) < Slot(t0, p, e, j)
  {
    hide Slot, Deadline, TimingAt, Skips, Skipped, Now;
    DriftFree(t0, p, e, j);
    if i + 1 < j {
      SlotsIncrease(t0, p, e, i, j - 1);
    }
  }

  /** A virtual clock: a sleep ends exactly when it should, and the body takes no time. */
  ghost predicate Virtual(e: Env) {
    forall j: nat :: e.lag(j) == 0.0 && e.work(j) == 0.0
  }

  /** Under a virtual clock iteration k, counting from one, runs exactly at t0 + k p,
      is never late and skips nothing. */
  lemma {:induction false} VirtualExact(t0: real, p: real, e: Env, k: nat)
    requires p > 0.0 && Virtual(e)
    ensures Now(t0, p, e, k) == t0 + Grid(p, k + 1) == Deadline(t0, p, e, k)
    ensures Skipped(t0, p, e, k) == 0
    ensures TimingAt(t0, p, e, k).overruns == 0 && TimingAt(t0, p, e, k).totalError == 0.0
    ensures TimingAt(t0, p, e, k).late == 0 && TimingAt(t0, p, e, k).period == p
  {
    hide Grid, Deadline, Skipped, Skips, TimingAt, Following, Missed, Delay;
    GridStep(p, k);
    GridStep(p, 0);
    if k == 0 {
      Starts(t0, p, e);
      OnTheDot(t0 + p, t0, p);
    } else {
      VirtualExact(t0, p, e, k - 1);
      Continues(t0, p, e, k - 1);
      NothingMissed(Deadline(t0, p, e, k - 1), p);
      OnTheDot(Deadline(t0, p, e, k), Now(t0, p, e, k - 1), p);
    }
  }

  lemma OnTheDot(next: real, top: real, p: real)
    requires p > 0.0 && next == top + p
    ensures top + Delay(next, top, p) == next
  {}

  lemma NothingMissed(next: real, p: real)
    requires p > 0.0
    ensures Missed(next + p, next, p) == 0 && Following(next, next, p) == next + p
  {
    GridStep(p, 0);
  }

  /** How late iteration k ran. */
  function Lateness(t0: real, p: real, e: Env, k: nat): real
    requires p > 0.0
  {
    Max(0.0, Now(t0, p, e, k) - Deadline(t0, p, e, k))
  }

  /** Iterations, of the first k, later than x. */
  function LaterThan(t0: real, p: real, e: Env, k: nat, x: real): nat
    requires p > 0.0
  {
    if k == 0 then 0 else LaterThan(t0, p, e, k - 1, x) + if Lateness(t0, p, e, k - 1) > x then 1 else 0
  }

  function TotalLateness(t0: real, p: real, e: Env, k: nat): real
    requires p > 0.0
  {
    if k == 0 then 0.0 else TotalLateness(t0, p, e, k - 1) + Lateness(t0, p, e, k - 1)
  }

  /** The record is a record: the late iterations counted, the worst error the greatest of
      them all, the total their sum, and the overruns those later than a whole period. */
  lemma {:induction false} RecordIs(t0: real, p: real, e: Env, k: nat)
    requires p > 0.0
    ensures var t := TimingAt(t0, p, e, k);
            && t.period == p && t.iterations == k
            && t.late == LaterThan(t0, p, e, k, 0.1 * p)
            && t.overruns == LaterThan(t0, p, e, k, p)
            && t.totalError == TotalLateness(t0, p, e, k)
            && (forall j: nat | j < k :: Lateness(t0, p, e, j) <= t.maxError)
            && (t.maxError == 0.0 || exists j: nat :: j < k && t.maxError == Lateness(t0, p, e, j))
  {
    hide Now, Deadline, Lateness;
    if k > 0 {
      RecordIs(t0, p, e, k - 1);
      LatenessIs(t0, p, e, k - 1);
      var was, now := TimingAt(t0, p, e, k - 1), TimingAt(t0, p, e, k);
      assert now.maxError == Max(Lateness(t0, p, e, k - 1), was.maxError);
    }
  }

  lemma LatenessIs(t0: real, p: real, e: Env, k: nat)
    requires p > 0.0
    ensures Lateness(t0, p, e, k) == Max(0.0, Now(t0, p, e, k) - Deadline(t0, p, e, k))
  {}

  // ----------------------------------------------------------------------- the objects

  class LoopTiming {
    const period: real
    var iterations: nat
    var late: nat
    var maxError: real
    var totalError: real
    var overruns: nat

    function Value(): Timing
      reads this
    {
      Timing(period, iterations, late, maxError, totalError, overruns)
    }

    constructor (period: real)
      ensures Value() == NewTiming(period)
    {
      this.period := period;
      iterations, late, maxError, totalError, overruns := 0, 0, 0.0, 0.0, 0;
    }

    method RecordError(error: real, threshold: real)
      modifies this
      ensures Value() == Record(old(Value()), error, threshold)
    {
      iterations := iterations + 1;
      totalError := totalError + error;
      if error > maxError {
        maxError := error;
      }
      if error > threshold {
        late := late + 1;
      }
      if error > period {
        overruns := overruns + 1;
      }
    }
  }

  /** A clock that has slept and worked as `env` says. */
  class EnvClock {
    const env: Env
    var t: real
    var sleeps: nat

    constructor (t0: real, env: Env)
      ensures t == t0 && sleeps == 0 && this.env == env
    {
      t, sleeps, this.env := t0, 0, env;
    }

    method Sleep(seconds: real)
      modifies this
      ensures t == old(t) + seconds + env.lag(old(sleeps)) && sleeps == old(sleeps) + 1
    {
      t, sleeps := t + seconds + env.lag(sleeps), sleeps + 1;
    }

    /** The body that followed the last sleep. */
    method Work()
      requires sleeps > 0
      modifies this`t
      ensures t == old(t) + env.work(sleeps - 1)
    {
      t := t + env.work(sleeps - 1);
    }
  }

  /** The loop itself; `times` are the instants its body ran at. */
  method RunPeriodic(clock: EnvClock, p: real, timing: LoopTiming, iterations: nat)
    returns (nextDeadline: real, times: seq<real>)
    requires p > 0.0 && timing.Value() == NewTiming(p) && clock.sleeps == 0
    modifies timing, clock
    ensures nextDeadline == Deadline(old(clock.t), p, clock.env, iterations)
    ensures timing.Value() == TimingAt(old(clock.t), p, clock.env, iterations)
    ensures clock.t == Top(old(clock.t), p, clock.env, iterations)
    ensures |times| == iterations && forall k | 0 <= k < iterations :: times[k] == Now(old(clock.t), p, clock.env, k)
  {
    hide Delay, Grid, FloorQuotient, Record;
    ghost var t0 := clock.t;
    nextDeadline, times := clock.t + p, [];
    var done := 0;
    var threshold := 0.1 * p;
    while done < iterations
      invariant done <= iterations && |times| == done && clock.sleeps == done
      invariant nextDeadline == Deadline(t0, p, clock.env, done)
      invariant timing.Value() == TimingAt(t0, p, clock.env, done)
      invariant clock.t == Top(t0, p, clock.env, done)
      invariant forall k | 0 <= k < done :: times[k] == Now(t0, p, clock.env, k)
    {
      clock.Sleep(Delay(nextDeadline, clock.t, p));
      var now := clock.t;
      timing.RecordError(Max(0.0, now - nextDeadline), threshold);
      times := times + [now];
      clock.Work();
      done := done + 1;
      nextDeadline := nextDeadline + p;
      if nextDeadline < now {
        var missed := FloorQuotient(now - nextDeadline, p) + 1;
        nextDeadline := nextDeadline + Grid(p, missed);
      } else {
        GridStep(p, 0);
      }
    }
  }

  // ------------------------------------------------------------------- what a tick sends

  /** The counters of a control loop that publishes from inside its tick. */
  datatype Cadence = Cadence(every: nat, ticks: nat, seqNo: nat, published: nat)

  function TickCadence(a: Cadence): Cadence
    requires a.every > 0
  {
    if (a.ticks + 1) % a.every == 0
    then a.(ticks := a.ticks + 1, seqNo := (a.seqNo + 1) % 0x1_0000, published := a.published + 1)
    else a.(ticks := a.ticks + 1)
  }

  class Publisher {
    const every: nat
    var ticks: nat
    var seqNo: nat
    var published: nat

    function Value(): Cadence
      reads this
    {
      Cadence(every, ticks, seqNo, published)
    }

    constructor (every: nat)
      ensures Value() == Cadence(every, 0, 0, 0)
    {
      this.every := every;
      ticks, seqNo, published := 0, 0, 0;
    }

    method ControlStep() returns (sent: bool)
      requires every > 0
      modifies this
      ensures Value() == TickCadence(old(Value()))
      ensures sent <==> published > old(published)
    {
      sent := (ticks + 1) % every == 0;
      if sent {
        PublishStep();
      }
      ticks := ticks + 1;
    }

    method PublishStep()
      modifies this`seqNo, this`published
      ensures seqNo == (old(seqNo) + 1) % 0x1_0000 && published == old(published) + 1
    {
      seqNo := (seqNo + 1) % 0x1_0000;
      published := published + 1;
    }
  }

  function TickedCadence(every: nat, n: nat): (a: Cadence)
    requires every > 0
    ensures a.every == every
  {
    if n == 0 then Cadence(every, 0, 0, 0) else TickCadence(TickedCadence(every, n - 1))
  }

  /** n ticks send exactly n / every packets, the j-th at the end of the j-th group, and
      number them modulo 2^16. */
  lemma {:induction false} CadenceExact(every: nat, n: nat)
    requires every > 0
    ensures var a := TickedCadence(every, n);
            a.ticks == n && a.published == n / every && a.seqNo == a.published % 0x1_0000
    ensures n > 0 ==> (TickedCadence(every, n).published > TickedCadence(every, n - 1).published <==> n % every == 0)
  {
    hide TickedCadence;
    if n == 0 {
      NoTicks(every);
    } else {
      CadenceExact(every, n - 1);
      QuotientStep(n, every);
      CadenceStep(every, n);
    }
  }

  lemma NoTicks(every: nat)
    requires every > 0
    ensures TickedCadence(every, 0) == Cadence(every, 0, 0, 0)
  {}

  lemma CadenceStep(every: nat, n: nat)
    requires every > 0 && n > 0 && TickedCadence(every, n - 1).ticks == n - 1
    ensures var b, a := TickedCadence(every, n - 1), TickedCadence(every, n);
            && a.ticks == n
            && (n % every == 0 ==> a.published == b.published + 1 && a.seqNo == (b.seqNo + 1) % 0x1_0000)
            && (n % every != 0 ==> a.published == b.published && a.seqNo == b.seqNo)
  {}

  lemma QuotientStep(n: nat, d: nat)
    requires d > 0 && n > 0
    ensures n / d == (n - 1) / d + if n % d == 0 then 1 else 0
  {
    var q, r := (n - 1) / d, (n - 1) % d;
    assert n == d * q + (r + 1);
    if r + 1 < d {
      Gf2.DivModUnique(n, d, q, r + 1);
    } else {
      assert d * q + d == d * (q + 1);
      Gf2.DivModUnique(n, d, q + 1, 0);
    }
  }
}
