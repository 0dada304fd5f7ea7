/** The neighbour table: the last packet of each declared neighbour, written on
    receipt and read synchronously by the control loop.
  */
module Neighbors {
  import opened Options

  datatype Packet = Packet(node: nat, vstate: seq<int>, seqNo: nat, txUs: int, enabled: bool)

  datatype Reception = Reception(packet: Packet, rxUs: int, rssi: Option<int>)

  datatype Record = Record(vstate: seq<int>, seqNo: nat, txUs: int, rxUs: int, senderEnabled: bool,
                           rssi: Option<int>, updates: nat)

  datatype Table = Table(ids: seq<nat>, maxAgeUs: int, dim: nat, hold: bool,
                         records: map<nat, Record>, arrived: set<nat>, ignored: nat)

  function Empty(ids: seq<nat>, maxAgeUs: int, dim: nat, hold: bool): Table {
    Table(ids, maxAgeUs, dim, hold, map[], {}, 0)
  }

  function Updates(t: Table, node: nat): nat {
    if node in t.records then t.records[node].updates else 0
  }

  function MakeRecord(t: Table, r: Reception): Record {
    Record(r.packet.vstate, r.packet.seqNo, r.packet.txUs, r.rxUs, r.packet.enabled, r.rssi,
           Updates(t, r.packet.node) + 1)
  }

  /** A packet from an undeclared node only counts as ignored. */
  function Observe(t: Table, r: Reception): Table {
    var n := r.packet.node;
    if n !in t.ids then t.(ignored := t.ignored + 1)
    else t.(arrived := t.arrived + {n}, records := t.records[n := MakeRecord(t, r)])
  }

  // ------------------------------------------------------------- the read side

  /** The scaled integers one neighbour contributes: its last value cut or padded
      to the dimension, zeros if it was never heard. */
  function Values(t: Table, node: nat): (v: seq<int>)
    ensures |v| == t.dim
  {
    seq(t.dim, k requires 0 <= k < t.dim =>
      if node in t.records && k < |t.records[node].vstate| then t.records[node].vstate[k] else 0)
  }

  function Usable(t: Table, node: nat, now: int): bool {
    && node in t.records
    && t.records[node].senderEnabled
    && (t.hold || now - t.records[node].rxUs <= t.maxAgeUs)
  }

  function Flat(t: Table, ids: seq<nat>): (v: seq<int>)
    ensures |v| == t.dim * |ids|
  {
    if ids == [] then [] else Flat(t, ids[..|ids| - 1]) + Values(t, ids[|ids| - 1])
  }

  lemma {:induction false} FlatAt(t: Table, ids: seq<nat>, j: nat, k: nat)
    requires j < |ids| && k < t.dim
    ensures t.dim * j + k < t.dim * |ids|
    ensures Flat(t, ids)[t.dim * j + k] == Values(t, ids[j])[k]
    decreases |ids|
  {
    var n := |ids| - 1;
    assert t.dim * |ids| == t.dim * n + t.dim;
    if j < n {
      FlatAt(t, ids[..n], j, k);
    }
  }

  // ----------------------------------------------------------------- histories

  function ObserveAll(t: Table, rs: seq<Reception>): Table {
    if rs == [] then t else Observe(ObserveAll(t, rs[..|rs| - 1]), rs[|rs| - 1])
  }

  /** The last reception from a node. */
  function Last(rs: seq<Reception>, node: nat): Option<Reception> {
    if rs == [] then None
    else if rs[|rs| - 1].packet.node == node then Some(rs[|rs| - 1])
    else Last(rs[..|rs| - 1], node)
  }

  function From(rs: seq<Reception>, node: nat): nat {
    if rs == [] then 0 else From(rs[..|rs| - 1], node) + if rs[|rs| - 1].packet.node == node then 1 else 0
  }

  function Foreign(rs: seq<Reception>, ids: seq<nat>): nat {
    if rs == [] then 0 else Foreign(rs[..|rs| - 1], ids) + if rs[|rs| - 1].packet.node !in ids then 1 else 0
  }

  /** Whatever arrived, in whatever order, a declared neighbour contributes the
      last value received from it, or zeros; every reception updated exactly one
      record or was ignored; and the arrival flags are the nodes heard. */
  lemma {:induction false} HeldIsLast(ids: seq<nat>, maxAge: int, dim: nat, hold: bool, rs: seq<Reception>, node: nat)
    requires node in ids
    ensures var t := ObserveAll(Empty(ids, maxAge, dim, hold), rs);
            && t.ids == ids && t.dim == dim && t.hold == hold && t.maxAgeUs == maxAge
            && (node in t.records <==> Last(rs, node).Some?)
            && (node in t.arrived <==> Last(rs, node).Some?)
            && Updates(t, node) == From(rs, node)
            && t.ignored == Foreign(rs, ids)
            && (node in t.records ==>
                  var r, last := t.records[node], Last(rs, node).value;
                  && r.vstate == last.packet.vstate && r.seqNo == last.packet.seqNo
                  && r.rxUs == last.rxUs && r.txUs == last.packet.txUs
                  && r.senderEnabled == last.packet.enabled && r.rssi == last.rssi)
  {
    if rs != [] {
      HeldIsLast(ids, maxAge, dim, hold, rs[..|rs| - 1], node);
    }
  }

  /** Whatever arrived, a declared neighbour is usable exactly when its last packet said so and
      is not too old, or age does not matter; what it contributes is that packet's value. */
  lemma UsableIff(ids: seq<nat>, maxAge: int, dim: nat, hold: bool, rs: seq<Reception>, node: nat, now: int)
    requires node in ids
    ensures var t, last := ObserveAll(Empty(ids, maxAge, dim, hold), rs), Last(rs, node);
            && (Usable(t, node, now)
                <==> last.Some? && last.value.packet.enabled && (hold || now - last.value.rxUs <= maxAge))
            && t.dim == dim
            && forall k | 0 <= k < dim ::
                 Values(t, node)[k] == if last.Some? && k < |last.value.packet.vstate| then last.value.packet.vstate[k] else 0
  {
    hide ObserveAll, Last;
    HeldIsLast(ids, maxAge, dim, hold, rs, node);
  }

  // ---------------------------------------------------------------- the object

  class NeighborTable {
    const ids: seq<nat>
    const maxAgeUs: int
    const dim: nat
    const hold: bool
    var records: map<nat, Record>
    var arrived: set<nat>
    var ignored: nat

    function Value(): Table
      reads this
    {
      Table(ids, maxAgeUs, dim, hold, records, arrived, ignored)
    }

    constructor (ids: seq<nat>, maxAgeUs: int, dim: nat, hold: bool)
      ensures Value() == Empty(ids, maxAgeUs, dim, hold)
    {
      this.ids, this.maxAgeUs, this.dim, this.hold := ids, maxAgeUs, dim, hold;
      records, arrived, ignored := map[], {}, 0;
    }

    /** False when the packet was not from a declared neighbour. */
    method Receive(r: Reception) returns (known: bool)
      modifies this
      ensures Value() == Observe(old(Value()), r)
      ensures known <==> r.packet.node in ids
    {
      var n := r.packet.node;
      if n !in ids {
        ignored := ignored + 1;
        return false;
      }
      arrived := arrived + {n};
      var before := if n in records then records[n].updates else 0;
      records := records[n := Record(r.packet.vstate, r.packet.seqNo, r.packet.txUs, r.rxUs,
                                     r.packet.enabled, r.rssi, before + 1)];
      known := true;
    }

    method Snapshot(now: int) returns (vstates: seq<int>, enabled: seq<bool>)
      ensures vstates == Flat(Value(), ids)
      ensures |enabled| == |ids|
      ensures forall j | 0 <= j < |ids| :: enabled[j] == Usable(Value(), ids[j], now)
    {
      vstates, enabled := [], [];
      for j := 0 to |ids|
        invariant vstates == Flat(Value(), ids[..j]) && |enabled| == j
        invariant forall i | 0 <= i < j :: enabled[i] == Usable(Value(), ids[i], now)
      {
        assert ids[..j + 1][..j] == ids[..j];
        vstates := vstates + Values(Value(), ids[j]);
        enabled := enabled + [Usable(Value(), ids[j], now)];
      }
      assert ids[..|ids|] == ids;
    }

    /** Who was heard since the last call; reading clears. */
    method Arrivals() returns (flags: seq<bool>)
      modifies this`arrived
      ensures |flags| == |ids| && forall j | 0 <= j < |ids| :: flags[j] == (ids[j] in old(arrived))
      ensures Value() == old(Value()).(arrived := {})
    {
      var heard := arrived;
      flags := seq(|ids|, j requires 0 <= j < |ids| => ids[j] in heard);
      arrived := {};
    }
  }
}
