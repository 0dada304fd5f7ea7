/** The applied command rebuilt from a node's own log, against the command the
    controller applied.
  */
module Effort {
  import opened RealMath
  import opened Virtual
  import opened Interfaces
  import P = Plant
  import M = Microgrid
  import opened Options

  /** The adaptive quantity a node logs: the gain, the estimate, or neither. */
  datatype Quantity = Gain(v: seq<real>) | Estimate(s: seq<Pair>) | Absent
  {
    predicate Rows(n: nat) {
      match this
      case Gain(v) => |v| == n
      case Estimate(s) => |s| == n
      case Absent => true
    }
  }

  datatype Data = Data(x: seq<Pair>, z: seq<Pair>, q: Quantity, muapp: Option<seq<Pair>>)
  {
    predicate Valid() {
      |z| == |x| && q.Rows(|x|) && (muapp.Some? ==> |muapp.value| == |x|)
    }

    /** Rows that have a predecessor. */
    function Count(): nat {
      if |x| == 0 then 0 else |x| - 1
    }
  }

  datatype Iface = AdaptiveMeta(a: AdaptiveParams) | LCMeta(l: LCParams)
  {
    function MuMax(): real {
      if AdaptiveMeta? then a.muMax else l.muMax
    }
  }

  datatype Meta = Meta(h: real, iface: Iface)

  /** The reconstruction's clip: the lower bound first, then the upper. */
  function NpClip(mu: real, m: real): real {
    Min(Max(mu, -m), m)
  }

  /** The law's own clock at the step whose output is row k + 1. */
  function Clock(meta: Meta, k: nat): real {
    M.Time(k + 1, meta.h)
  }

  /** Every division of the reconstruction is defined. */
  predicate Defined(meta: Meta, d: Data) {
    && d.Valid() && meta.h != 0.0
    && (d.q.Estimate? ==> meta.iface.LCMeta?)
    && (d.q.Estimate? ==> forall k | 0 <= k < d.Count() :: LCDefined(meta.iface.l, meta.h, Clock(meta, k)))
  }

  function SigmaAt(d: Data, k: nat): Pair
    requires d.Valid() && k < d.Count()
  {
    Sub(d.x[k], d.z[k])
  }

  function Slope(z0: real, z1: real, h: real): real
    requires h != 0.0
  {
    (z1 - z0) / h
  }

  function SlopeAt(meta: Meta, d: Data, k: nat): Pair
    requires d.Valid() && k < d.Count() && meta.h != 0.0
  {
    Pair(Slope(d.z[k].P, d.z[k + 1].P, meta.h), Slope(d.z[k].Q, d.z[k + 1].Q, meta.h))
  }

  /** The interface's term; None marks a row of the terminal policy. */
  function OmegaAt(m: P.Maths, meta: Meta, d: Data, k: nat): Option<Pair>
    requires Defined(meta, d) && !d.q.Absent? && k < d.Count()
  {
    match d.q
    case Gain(v) => Some(AdaptiveOmega(v[k], SigmaAt(d, k), meta.h))
    case Estimate(s) =>
      if Terminal(meta.iface.l, Clock(meta, k)) then None
      else Some(LCOmega(m, meta.iface.l, meta.h, s[k], Clock(meta, k), d.x[k], SigmaAt(d, k)))
  }

  function RebuiltAt(m: P.Maths, meta: Meta, d: Data, k: nat): Pair
    requires Defined(meta, d) && !d.q.Absent? && k < d.Count()
  {
    var omega := OmegaAt(m, meta, d, k);
    var mu := if omega.None? then Pair(0.0, 0.0) else Sub(SlopeAt(meta, d, k), omega.value);
    Pair(NpClip(mu.P, meta.iface.MuMax()), NpClip(mu.Q, meta.iface.MuMax()))
  }

  function Rebuilt(m: P.Maths, meta: Meta, d: Data): (r: seq<Pair>)
    requires Defined(meta, d) && !d.q.Absent?
    ensures |r| == d.Count()
  {
    seq(d.Count(), k requires 0 <= k < d.Count() => RebuiltAt(m, meta, d, k))
  }

  // ------------------------------------------------------------------- the program

  method OmegaLC(m: P.Maths, meta: Meta, d: Data) returns (out: array<Option<Pair>>)
    requires Defined(meta, d) && d.q.Estimate?
    ensures fresh(out) && out.Length == d.Count()
    ensures forall k | 0 <= k < out.Length :: out[k] == OmegaAt(m, meta, d, k)
  {
    out := new Option<Pair>[d.Count()](_ => None);
    var p := meta.iface.l;
    for k := 0 to d.Count()
      invariant forall i | 0 <= i < k :: out[i] == OmegaAt(m, meta, d, i)
    {
      var t := Clock(meta, k);
      if Terminal(p, t) {
        out[k] := None;
        continue;
      }
      out[k] := Some(LCOmega(m, p, meta.h, d.q.s[k], t, d.x[k], SigmaAt(d, k)));
    }
  }

  /** None is the refusal of a log with neither the command nor an adaptive quantity. */
  method FromData(m: P.Maths, meta: Meta, d: Data, rebuild: bool) returns (r: Option<seq<Pair>>)
    requires Defined(meta, d)
    ensures !rebuild && d.muapp.Some? ==> r == Some(if |d.muapp.value| == 0 then [] else d.muapp.value[1..])
    ensures (rebuild || d.muapp.None?) && d.q.Absent? ==> r == None
    ensures (rebuild || d.muapp.None?) && !d.q.Absent? ==> r == Some(Rebuilt(m, meta, d))
  {
    hide SlopeAt, NpClip, AdaptiveOmega, LCOmega;
    if !rebuild && d.muapp.Some? {
      return Some(if |d.muapp.value| == 0 then [] else d.muapp.value[1..]);
    }
    if d.q.Absent? {
      return None;
    }
    var n := d.Count();
    var omega := new Option<Pair>[n](_ => None);
    if d.q.Gain? {
      forall k | 0 <= k < n {
        omega[k] := Some(AdaptiveOmega(d.q.v[k], SigmaAt(d, k), meta.h));
      }
    } else {
      omega := OmegaLC(m, meta, d);
    }
    var mu := new Pair[n](_ => Pair(0.0, 0.0));
    for k := 0 to n
      invariant forall i | 0 <= i < n :: omega[i] == OmegaAt(m, meta, d, i)
      invariant forall i | 0 <= i < k ::
                  mu[i] == if omega[i].None? then Pair(0.0, 0.0) else Sub(SlopeAt(meta, d, i), omega[i].value)
      invariant forall i | k <= i < n :: mu[i] == Pair(0.0, 0.0)
    {
      if omega[k].Some? {
        mu[k] := Sub(SlopeAt(meta, d, k), omega[k].value);
      }
    }
    var lim := meta.iface.MuMax();
    var rows := seq(n, k requires 0 <= k < n reads mu => Pair(NpClip(mu[k].P, lim), NpClip(mu[k].Q, lim)));
    assert forall k | 0 <= k < n :: rows[k] == RebuiltAt(m, meta, d, k);
    assert rows == Rebuilt(m, meta, d);
    r := Some(rows);
  }

  // -------------------------------------------------- the log of a run, and its meta data

  function MetaOf(a: M.Agent): Meta {
    Meta(a.h, if a.arm.AdaptiveArm? then AdaptiveMeta(a.arm.a.p) else LCMeta(a.arm.l.p))
  }

  function QuantityOf(m: P.Maths, a: M.Agent, f: M.Inputs, n: nat): Quantity
    requires M.Healthy(a)
  {
    if a.arm.AdaptiveArm?
    then Gain(seq(n, k requires 0 <= k < n => GainOf(M.RowAt(m, a, f, k).arm)))
    else Estimate(seq(n, k requires 0 <= k < n => EstimateOf(M.RowAt(m, a, f, k).arm)))
  }

  function GainOf(arm: M.Arm): real {
    if arm.AdaptiveArm? then arm.a.vartheta else 0.0
  }

  function EstimateOf(arm: M.Arm): Pair {
    if arm.LCArm? then arm.l.S else Pair(0.0, 0.0)
  }

  function LoggedCommands(m: P.Maths, a: M.Agent, f: M.Inputs, n: nat): (r: seq<Pair>)
    requires M.Healthy(a)
    ensures |r| == n
  {
    seq(n, k requires 0 <= k < n => M.RowAt(m, a, f, k).cmd.app)
  }

  function LogOf(m: P.Maths, a: M.Agent, f: M.Inputs, n: nat): (d: Data)
    requires M.Healthy(a)
    ensures d.Valid() && |d.x| == n
  {
    Data(seq(n, k requires 0 <= k < n => M.RowAt(m, a, f, k).x),
         seq(n, k requires 0 <= k < n => M.RowAt(m, a, f, k).z),
         QuantityOf(m, a, f, n),
         Some(LoggedCommands(m, a, f, n)))
  }

  // ------------------------------------------------------------------------ exactness

  /** The two clips agree exactly off the branch a negative limit opens. */
  lemma ClipsAgree(mu: real, m: real)
    ensures NpClip(mu, m) == Clip(mu, m) <==> m >= 0.0 || mu > m
  {}

  predicate Faithful(limit: real, mu: Pair) {
    limit >= 0.0 || (mu.P > limit && mu.Q > limit)
  }

  lemma SlopeRecovers(z: real, h: real, g: real)
    requires h != 0.0
    ensures Slope(z, M.Drift(z, h, g), h) == g
  {
    DivMul(M.Drift(z, h, g) - z, h);
    Cancel(h, (M.Drift(z, h, g) - z) / h, g);
  }

  lemma LogDefined(m: P.Maths, a: M.Agent, f: M.Inputs, n: nat)
    requires M.Healthy(a) && a.ticks == 0
    ensures Defined(MetaOf(a), LogOf(m, a, f, n)) && !LogOf(m, a, f, n).q.Absent?
  {
    hide M.RowAt;
  }

  /** What row k of the log says about the agent before tick k + 1. */
  lemma LogRow(m: P.Maths, a: M.Agent, f: M.Inputs, n: nat, k: nat)
    requires M.Healthy(a) && a.ticks == 0 && k + 1 < n
    ensures var d, b := LogOf(m, a, f, n), M.At(m, a, f, k + 1);
            && d.x[k] == b.x && d.z[k] == b.layer.z && b.h == a.h
            && M.Now(b) == Clock(MetaOf(a), k)
            && d.z[k + 1] == M.Observed(b, f(k + 1)).z
            && (d.q.Gain? <==> b.arm.AdaptiveArm?)
            && (b.arm.AdaptiveArm? ==> d.q.v[k] == b.arm.a.vartheta && b.arm.a.p == a.arm.a.p && MetaOf(a).iface == AdaptiveMeta(a.arm.a.p))
            && (b.arm.LCArm? ==> d.q == Estimate(d.q.s) && d.q.s[k] == b.arm.l.S && b.arm.l.p == a.arm.l.p && MetaOf(a).iface == LCMeta(a.arm.l.p))
            && M.RowAt(m, a, f, k + 1).cmd == M.CommandOf(m, b, f(k + 1))
  {
    hide M.At, M.CommandOf, M.Observed, P.Advance, M.ArmNext, M.Watch, Theta, Den, Hold;
    M.AtNext(m, a, f, k);
    M.AtNext(m, a, f, k + 1);
    M.AtFixed(m, a, f, k + 1);
  }

  /** Row by row: the rebuilt command is the applied one exactly when the limit
      is nonnegative or both commands exceeded it. */
  lemma RowRebuiltIff(m: P.Maths, a: M.Agent, f: M.Inputs, n: nat, k: nat)
    requires M.Healthy(a) && a.ticks == 0 && k + 1 < n
    ensures Defined(MetaOf(a), LogOf(m, a, f, n)) && !LogOf(m, a, f, n).q.Absent?
    ensures var c := M.RowAt(m, a, f, k + 1).cmd;
            RebuiltAt(m, MetaOf(a), LogOf(m, a, f, n), k) == c.app
            <==> Faithful(MetaOf(a).iface.MuMax(), c.mu)
  {
    hide M.At, M.CommandOf, M.Observed, M.RowAt, LogOf, NpClip, Clip, AdaptiveOmega, LCOmega;
    LogDefined(m, a, f, n);
    LogRow(m, a, f, n, k);
    var d, b := LogOf(m, a, f, n), M.At(m, a, f, k + 1);
    M.ObserverSlope(b, f(k + 1));
    SlopeRecovers(b.layer.z.P, a.h, M.Observed(b, f(k + 1)).g.P);
    SlopeRecovers(b.layer.z.Q, a.h, M.Observed(b, f(k + 1)).g.Q);
    CommandParts(m, b, f(k + 1));
    var mu := M.CommandOf(m, b, f(k + 1)).mu;
    ClipsAgree(mu.P, MetaOf(a).iface.MuMax());
    ClipsAgree(mu.Q, MetaOf(a).iface.MuMax());
  }

  /** The command, arm by arm. */
  lemma CommandParts(m: P.Maths, b: M.Agent, vs: seq<int>)
    requires M.Runs(b)
    ensures var c, g := M.CommandOf(m, b, vs), M.Observed(b, vs).g;
            var sigma := Sub(b.x, b.layer.z);
            && (b.arm.AdaptiveArm? ==>
                  c.mu == Sub(g, AdaptiveOmega(b.arm.a.vartheta, sigma, b.h)) && c.app == ClipBoth(c.mu, b.arm.a.p.muMax))
            && (b.arm.LCArm? ==>
                  && c.app == ClipBoth(c.mu, b.arm.l.p.muMax)
                  && c.mu == if Terminal(b.arm.l.p, M.Now(b)) then Pair(0.0, 0.0)
                             else Sub(g, LCOmega(m, b.arm.l.p, b.h, b.arm.l.S, M.Now(b), b.x, sigma)))
  {
    hide M.Observed, AdaptiveOmega, LCOmega, TrigOf, Gate, P.Norm, Clip;
  }

  /** For every limit the manifest admits, every arm, every neighbour data and every
      length of run, the reconstruction is the logged command on rows 1..N-1. */
  lemma ReconstructionExact(m: P.Maths, a: M.Agent, f: M.Inputs, n: nat)
    requires M.Healthy(a) && a.ticks == 0 && n > 0 && MetaOf(a).iface.MuMax() >= 0.0
    ensures Defined(MetaOf(a), LogOf(m, a, f, n)) && !LogOf(m, a, f, n).q.Absent?
    ensures Rebuilt(m, MetaOf(a), LogOf(m, a, f, n)) == LoggedCommands(m, a, f, n)[1..]
  {
    hide RebuiltAt, M.RowAt;
    LogDefined(m, a, f, n);
    var d := LogOf(m, a, f, n);
    forall k | 0 <= k < n - 1
      ensures RebuiltAt(m, MetaOf(a), d, k) == LoggedCommands(m, a, f, n)[1..][k]
    {
      RowRebuiltIff(m, a, f, n, k);
    }
  }
}
