/** A fleet of observers over a lossy medium, as a transition system.

    A packet once published may be delivered to any agent, at any later moment,
    any number of times, or never: loss, delay, reordering and duplication are
    all such histories. Ticks, publications and deliveries interleave freely.
  */
module FleetHull {
  import opened RealMath
  import opened Virtual
  import opened Numeric
  import M = Microgrid
  import N = Neighbors
  import P = Plant
  import opened Options

  datatype Agent = Agent(id: nat, h: real, layer: Layer, table: N.Table, steps: nat, seqNo: nat)

  datatype Fleet = Fleet(agents: seq<Agent>, ether: set<N.Packet>)

  datatype Event =
    | Tick(i: nat)
    | Publish(i: nat, txUs: int, enabled: bool)
    | Deliver(i: nat, r: N.Reception)

  function Heard(a: Agent): (ps: seq<Pair>)
    ensures |ps| == a.layer.degree
  {
    M.Pairs(N.Flat(a.table, a.table.ids), a.layer.degree)
  }

  /** The agent's run time, which its step counter keeps. */
  function Now(a: Agent): real {
    M.Time(a.steps, a.h)
  }

  /** One control tick of the observer: hold, step, commit. */
  function TickAgent(a: Agent): Agent {
    var m := Hold(a.layer, Heard(a));
    var t := Now(a);
    if m.Valid() && Den(m, t, a.h) != 0.0
    then a.(layer := Commit(m, Step(m, t, a.h)), steps := a.steps + 1)
    else a
  }

  /** This is the observer of the full controller, whatever its plant and interface do. */
  lemma ObserverOfController(m: P.Maths, c: M.Agent, a: Agent)
    requires M.Runs(c) && c.layer == a.layer && c.h == a.h && c.ticks == a.steps
    ensures var n := M.Tick(m, c, N.Flat(a.table, a.table.ids));
            && n.layer == TickAgent(a).layer && n.ticks == TickAgent(a).steps
  {
    hide Den, Step, M.ArmNext, M.CommandOf, P.Advance;
  }

  function PacketOf(a: Agent, txUs: int, enabled: bool): N.Packet {
    N.Packet(a.id, [Quantize(a.layer.z.P), Quantize(a.layer.z.Q)], (a.seqNo + 1) % 0x1_0000, txUs, enabled)
  }

  function Next(s: Fleet, e: Event): Fleet {
    if e.i >= |s.agents| then s
    else
      var a := s.agents[e.i];
      match e
      case Tick(i) => s.(agents := s.agents[i := TickAgent(a)])
      case Publish(i, tx, en) =>
        Fleet(s.agents[i := a.(seqNo := (a.seqNo + 1) % 0x1_0000)], s.ether + {PacketOf(a, tx, en)})
      case Deliver(i, r) =>
        if r.packet in s.ether then s.(agents := s.agents[i := a.(table := N.Observe(a.table, r))]) else s
  }

  function History(s: Fleet, es: seq<Event>): Fleet {
    if es == [] then s else Next(History(s, es[..|es| - 1]), es[|es| - 1])
  }

  // ------------------------------------------------------------------ the hull

  /** A rectangle whose corners are on the wire's grid and which holds 0, the
      value of a neighbour never heard. */
  datatype Grid = Grid(loP: int, hiP: int, loQ: int, hiQ: int)
  {
    function Box(): Box {
      Virtual.Box(Pair(Dequantize(loP), Dequantize(loQ)), Pair(Dequantize(hiP), Dequantize(hiQ)))
    }

    predicate Origin() {
      loP <= 0 <= hiP && loQ <= 0 <= hiQ
    }

    predicate HoldsScaled(v: seq<int>) {
      && (|v| > 0 ==> loP <= v[0] <= hiP)
      && (|v| > 1 ==> loQ <= v[1] <= hiQ)
    }
  }

  predicate AgentIn(g: Grid, a: Agent) {
    && Ready(a.layer, a.h)
    && a.table.dim == 2
    && g.Box().Holds(a.layer.z)
    && (a.layer.p.b > 0.0 ==> g.Box().Holds(a.layer.p.r))
    && (forall n | n in a.table.records :: g.HoldsScaled(a.table.records[n].vstate))
  }

  ghost predicate Inside(g: Grid, s: Fleet) {
    && (forall i | 0 <= i < |s.agents| :: AgentIn(g, s.agents[i]))
    && (forall p | p in s.ether :: g.HoldsScaled(p.vstate))
  }

  lemma DequantizeBetween(lo: int, q: int, hi: int)
    requires lo <= q <= hi
    ensures Dequantize(lo) <= Dequantize(q) <= Dequantize(hi)
  {}

  lemma HeardInside(g: Grid, a: Agent)
    requires g.Origin() && AgentIn(g, a)
    ensures AllIn(g.Box(), Heard(a))
  {
    var vs := N.Flat(a.table, a.table.ids);
    forall j | 0 <= j < a.layer.degree ensures g.Box().Holds(Heard(a)[j]) {
      DequantizeBetween(g.loP, 0, g.hiP);
      DequantizeBetween(g.loQ, 0, g.hiQ);
      if 2 * j < |vs| {
        var k := a.table.ids[j];
        N.FlatAt(a.table, a.table.ids, j, 0);
        N.FlatAt(a.table, a.table.ids, j, 1);
        DequantizeBetween(g.loP, N.Values(a.table, k)[0], g.hiP);
        DequantizeBetween(g.loQ, N.Values(a.table, k)[1], g.hiQ);
      }
    }
  }

  lemma TickInside(g: Grid, a: Agent)
    requires g.Origin() && AgentIn(g, a)
    ensures AgentIn(g, TickAgent(a))
    ensures TickAgent(a).steps == a.steps + 1 && TickAgent(a).layer.c >= a.layer.c
  {
    hide Step, Den, Heard, Hold, Gain;
    HeardInside(g, a);
    TickAgentIs(a);
    TickStaysIn(g.Box(), a.layer, Heard(a), Now(a), a.h);
  }

  lemma TickAgentIs(a: Agent)
    requires Ready(a.layer, a.h)
    ensures var m, t := Hold(a.layer, Heard(a)), Now(a);
            && m.Valid() && Den(m, t, a.h) != 0.0
            && TickAgent(a) == a.(layer := Commit(m, Step(m, t, a.h)), steps := a.steps + 1)
            && m.p == a.layer.p
  {
    hide Den, Gain, Hold, Step, Heard;
    HoldReady(a.layer, Heard(a), a.h);
    DenAtLeastOne(Hold(a.layer, Heard(a)), Now(a), a.h);
  }

  lemma PublishInside(g: Grid, a: Agent, txUs: int, enabled: bool)
    requires AgentIn(g, a)
    ensures g.HoldsScaled(PacketOf(a, txUs, enabled).vstate)
  {
    QuantizeWithin(g.loP, g.hiP, a.layer.z.P);
    QuantizeWithin(g.loQ, g.hiQ, a.layer.z.Q);
  }

  lemma NextInside(g: Grid, s: Fleet, e: Event)
    requires g.Origin() && Inside(g, s)
    ensures Inside(g, Next(s, e))
  {
    hide TickAgent, Ready;
    if e.i < |s.agents| {
      var a := s.agents[e.i];
      match e
      case Tick(_) =>
        TickInside(g, a);
      case Publish(_, tx, en) =>
        PublishInside(g, a, tx, en);
      case Deliver(_, r) =>
    }
  }

  /** Under every interleaving of ticks, publications and deliveries, every
      agent's value, every cached value and every value in flight stays in any
      such rectangle that held them, and the pinned references, at the start. */
  lemma {:induction false} HullForever(g: Grid, s: Fleet, es: seq<Event>)
    requires g.Origin() && Inside(g, s)
    ensures Inside(g, History(s, es))
  {
    if es != [] {
      HullForever(g, s, es[..|es| - 1]);
      NextInside(g, History(s, es[..|es| - 1]), es[|es| - 1]);
    }
  }

  /** A fleet before its first packet: only initial values and references matter. */
  predicate JustConfigured(s: Fleet) {
    && s.ether == {}
    && forall i | 0 <= i < |s.agents| ::
         var a := s.agents[i];
         && a.layer == Initial(a.layer.p, a.layer.degree, a.layer.z)
         && a.table == N.Empty(a.table.ids, a.table.maxAgeUs, 2, true)
         && a.steps == 0
         && a.layer.Valid() && a.layer.p.Nonnegative() && a.h > 0.0
  }

  lemma HullFromStart(g: Grid, s: Fleet, es: seq<Event>)
    requires g.Origin() && JustConfigured(s)
    requires forall i | 0 <= i < |s.agents| ::
               && g.Box().Holds(s.agents[i].layer.z)
               && (s.agents[i].layer.p.b > 0.0 ==> g.Box().Holds(s.agents[i].layer.p.r))
    ensures var f := History(s, es);
            && (forall i | 0 <= i < |f.agents| :: g.Box().Holds(f.agents[i].layer.z))
            && (forall i | 0 <= i < |f.agents| ::
                  forall n | n in f.agents[i].table.records :: g.HoldsScaled(f.agents[i].table.records[n].vstate))
            && (forall p | p in f.ether :: g.HoldsScaled(p.vstate))
  {
    assert Inside(g, s);
    HullForever(g, s, es);
  }
}
