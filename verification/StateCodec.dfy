/** The STATE payload: a fixed header, one 8-byte record per neighbour, and one
    of three tails told apart by length.

        t_us:u64 state:i32 vstate:i32 vartheta:i32 counter:i32 n:u8
        n * (vstate:i32 seq:u16 rssi:i8 flags:u8)
        nothing | state_Q:i32 vstate_Q:i32 | state_Q vstate_Q S1 S2
  */
module StateCodec {
  import opened Crc
  import F = Frames
  import opened Gf2
  import opened Options

  const MAX_NEIGHBORS := 16

  // ------------------------------------------------- little-endian integers

  function Le(n: nat, k: nat): (r: seq<Byte>)
    ensures |r| == k
    decreases k, n
  {
    if k == 0 then [] else [n % 0x100] + Le(n / 0x100, k - 1)
  }

  function Number(b: seq<Byte>): nat {
    if b == [] then 0 else (b[0] as nat) + 0x100 * Number(b[1..])
  }

  lemma {:induction false} NumberLe(n: nat, k: nat)
    requires n < Pow2(8 * k)
    ensures Number(Le(n, k)) == n
    decreases k
  {
    if k > 0 {
      PowByte(k - 1);
      NumberLe(n / 0x100, k - 1);
      assert Le(n, k)[1..] == Le(n / 0x100, k - 1);
    }
  }

  lemma {:induction false} LeNumber(b: seq<Byte>)
    ensures Number(b) < Pow2(8 * |b|)
    ensures Le(Number(b), |b|) == b
  {
    if b != [] {
      LeNumber(b[1..]);
      PowByte(|b| - 1);
    }
  }

  /** Two's complement in `k` bytes. */
  function SignedLe(v: int, k: nat): (r: seq<Byte>)
    requires -(Pow2(8 * k) as int) <= v
    ensures |r| == k
  {
    Le(if v < 0 then v + Pow2(8 * k) else v, k)
  }

  function Signed(b: seq<Byte>): int {
    var n := Number(b);
    if 2 * n >= Pow2(8 * |b|) then n - Pow2(8 * |b|) else n
  }

  /** What `struct` accepts for a signed field of `k` bytes. */
  predicate FitsSigned(v: int, k: nat) {
    -(Pow2(8 * k) as int) <= 2 * v < Pow2(8 * k)
  }

  predicate FitsUnsigned(v: int, k: nat) {
    0 <= v < Pow2(8 * k)
  }

  lemma SignedRoundTrip(v: int, k: nat)
    requires FitsSigned(v, k)
    ensures Signed(SignedLe(v, k)) == v
  {
    NumberLe(if v < 0 then v + Pow2(8 * k) else v, k);
  }

  lemma SignedBack(b: seq<Byte>)
    requires |b| > 0
    ensures FitsSigned(Signed(b), |b|) && SignedLe(Signed(b), |b|) == b
  {
    LeNumber(b);
    assert Pow2(8 * |b|) == 2 * Pow2(8 * |b| - 1);
  }

  // ------------------------------------------------------------- the report

  /** One control step as a board reports it: parallel lists per neighbour. */
  datatype StateReport = StateReport(
    tUs: int, state: int, vstate: int, vartheta: int, counter: int,
    nbrVstates: seq<int>, nbrEnabled: seq<bool>, nbrFresh: seq<bool>, nbrSeq: seq<int>, nbrRssi: seq<int>,
    stateQ: Option<int>, vstateQ: Option<int>, s1Hat: Option<int>, s2Hat: Option<int>)

  function OrZero(v: Option<int>): int {
    if v.Some? then v.value else 0
  }

  function At(s: seq<int>, i: nat): int {
    if i < |s| then s[i] else 0
  }

  predicate RecordFits(r: StateReport, i: nat)
    requires i < |r.nbrVstates|
  {
    && i < |r.nbrEnabled| && i < |r.nbrFresh|
    && FitsSigned(r.nbrVstates[i], 4)
    && FitsUnsigned(At(r.nbrSeq, i), 2)
    && FitsSigned(At(r.nbrRssi, i), 1)
  }

  /** The report packs without an error: every field in range, no list too short. */
  predicate InRange(r: StateReport) {
    && FitsUnsigned(r.tUs, 8)
    && FitsSigned(r.state, 4) && FitsSigned(r.vstate, 4) && FitsSigned(r.vartheta, 4) && FitsSigned(r.counter, 4)
    && FitsUnsigned(|r.nbrVstates|, 1)
    && (forall i | 0 <= i < |r.nbrVstates| :: RecordFits(r, i))
    && FitsSigned(OrZero(r.stateQ), 4) && FitsSigned(OrZero(r.vstateQ), 4)
    && FitsSigned(OrZero(r.s1Hat), 4) && FitsSigned(OrZero(r.s2Hat), 4)
  }

  /** The reports that mean what their payload says: lists of one length within
      the limit, and one of the three legal tails. */
  predicate Canonical(r: StateReport) {
    var n := |r.nbrVstates|;
    && n <= MAX_NEIGHBORS
    && |r.nbrEnabled| == |r.nbrFresh| == |r.nbrSeq| == |r.nbrRssi| == n
    && (r.stateQ.Some? <==> r.vstateQ.Some?)
    && (r.s1Hat.Some? <==> r.s2Hat.Some?)
    && (r.s1Hat.Some? ==> r.stateQ.Some?)
  }

  // ------------------------------------------------------------------ encode

  function Flags(enabled: bool, recent: bool): Byte {
    (if enabled then 1 else 0) + (if recent then 2 else 0)
  }

  function EncodeHeader(r: StateReport): (b: seq<Byte>)
    requires InRange(r)
    ensures |b| == 25
  {
    Le(r.tUs, 8) + SignedLe(r.state, 4) + SignedLe(r.vstate, 4) + SignedLe(r.vartheta, 4)
    + SignedLe(r.counter, 4) + Le(|r.nbrVstates|, 1)
  }

  function EncodeRecord(r: StateReport, i: nat): (b: seq<Byte>)
    requires InRange(r) && i < |r.nbrVstates|
    ensures |b| == 8
  {
    assert RecordFits(r, i);
    SignedLe(r.nbrVstates[i], 4) + Le(At(r.nbrSeq, i), 2) + SignedLe(At(r.nbrRssi, i), 1)
    + [Flags(r.nbrEnabled[i], r.nbrFresh[i])]
  }

  /** The first `n` records. */
  function EncodeRecords(r: StateReport, n: nat): (b: seq<Byte>)
    requires InRange(r) && n <= |r.nbrVstates|
    ensures |b| == 8 * n
  {
    if n == 0 then [] else EncodeRecords(r, n - 1) + EncodeRecord(r, n - 1)
  }

  function EncodeTail(r: StateReport): (b: seq<Byte>)
    requires InRange(r)
    ensures |b| == if r.s1Hat.Some? || r.s2Hat.Some? then 16 else if r.stateQ.Some? || r.vstateQ.Some? then 8 else 0
  {
    var short := SignedLe(OrZero(r.stateQ), 4) + SignedLe(OrZero(r.vstateQ), 4);
    if r.s1Hat.Some? || r.s2Hat.Some? then short + SignedLe(OrZero(r.s1Hat), 4) + SignedLe(OrZero(r.s2Hat), 4)
    else if r.stateQ.Some? || r.vstateQ.Some? then short
    else []
  }

  function Encode(r: StateReport): (b: seq<Byte>)
    requires InRange(r)
    ensures |b| == 25 + 8 * |r.nbrVstates| + |EncodeTail(r)|
  {
    EncodeHeader(r) + EncodeRecords(r, |r.nbrVstates|) + EncodeTail(r)
  }

  /** `None` is the packing error of an out-of-range field or a short list. */
  method EncodeState(r: StateReport) returns (out: Option<seq<Byte>>)
    ensures out.None? <==> !InRange(r)
    ensures out.Some? ==> out.value == Encode(r)
  {
    hide EncodeHeader, EncodeRecord, EncodeTail, RecordFits, FitsSigned, FitsUnsigned;
    if !InRange(r) {
      return None;
    }
    var n := |r.nbrVstates|;
    var b := EncodeHeader(r);
    for i := 0 to n
      invariant b == EncodeHeader(r) + EncodeRecords(r, i)
    {
      b := b + EncodeRecord(r, i);
    }
    out := Some(b + EncodeTail(r));
  }

  // ------------------------------------------------------------------ decode

  datatype Record = Record(vstate: int, seqNo: int, rssi: int, enabled: bool, recent: bool)

  function DecodeRecord(b: seq<Byte>): Record
    requires |b| == 8
  {
    Record(Signed(b[0..4]), Number(b[4..6]), Signed(b[6..7]), b[7] % 2 == 1, (b[7] / 2) % 2 == 1)
  }

  function RecordBytes(p: seq<Byte>, i: nat): (b: seq<Byte>)
    requires 25 + 8 * (i + 1) <= |p|
    ensures |b| == 8
  {
    p[25 + 8 * i..25 + 8 * i + 8]
  }

  /** The payload lengths the decoder accepts. */
  predicate WellFormed(p: seq<Byte>) {
    && |p| >= 25
    && (p[24] as nat) <= MAX_NEIGHBORS
    && |p| - 25 - 8 * (p[24] as nat) in {0, 8, 16}
  }

  function Records(p: seq<Byte>): seq<Record>
    requires WellFormed(p)
  {
    seq(p[24] as nat, i requires 0 <= i < p[24] as nat => DecodeRecord(RecordBytes(p, i)))
  }

  function Field(p: seq<Byte>, at: nat): Option<int>
    requires at + 4 <= |p|
  {
    Some(Signed(p[at..at + 4]))
  }

  function Decode(p: seq<Byte>): Option<StateReport> {
    if !WellFormed(p) then None
    else
      var n := p[24] as nat;
      var rs := Records(p);
      var want := 25 + 8 * n;
      var tail := |p| - want;
      Some(StateReport(
        Number(p[0..8]), Signed(p[8..12]), Signed(p[12..16]), Signed(p[16..20]), Signed(p[20..24]),
        seq(n, i requires 0 <= i < n => rs[i].vstate),
        seq(n, i requires 0 <= i < n => rs[i].enabled),
        seq(n, i requires 0 <= i < n => rs[i].recent),
        seq(n, i requires 0 <= i < n => rs[i].seqNo),
        seq(n, i requires 0 <= i < n => rs[i].rssi),
        if tail >= 8 then Field(p, want) else None,
        if tail >= 8 then Field(p, want + 4) else None,
        if tail == 16 then Field(p, want + 8) else None,
        if tail == 16 then Field(p, want + 12) else None))
  }

  /** `None` is the protocol error. */
  method DecodeState(p: seq<Byte>) returns (r: Option<StateReport>)
    ensures r == Decode(p)
  {
    hide Signed, Number, DecodeRecord, RecordBytes;
    if |p| < 25 {
      return None;
    }
    var n := p[24] as nat;
    var want := 25 + n * 8;
    var tail := |p| - want;
    if tail != 0 && tail != 8 && tail != 16 {
      return None;
    }
    if n > MAX_NEIGHBORS {
      return None;
    }
    var vs, seqs, rssis, en, fr := [], [], [], [], [];
    ghost var whole := Decode(p).value;
    for i := 0 to n
      invariant vs == whole.nbrVstates[..i] && seqs == whole.nbrSeq[..i] && rssis == whole.nbrRssi[..i]
      invariant en == whole.nbrEnabled[..i] && fr == whole.nbrFresh[..i]
    {
      var d := DecodeRecord(RecordBytes(p, i));
      vs, seqs, rssis := vs + [d.vstate], seqs + [d.seqNo], rssis + [d.rssi];
      en, fr := en + [d.enabled], fr + [d.recent];
    }
    assert vs == whole.nbrVstates && seqs == whole.nbrSeq && rssis == whole.nbrRssi;
    assert en == whole.nbrEnabled && fr == whole.nbrFresh;
    var sQ, vQ, s1, s2 := None, None, None, None;
    if tail == 8 {
      sQ, vQ := Field(p, want), Field(p, want + 4);
    } else if tail == 16 {
      sQ, vQ, s1, s2 := Field(p, want), Field(p, want + 4), Field(p, want + 8), Field(p, want + 12);
    }
    r := Some(StateReport(Number(p[0..8]), Signed(p[8..12]), Signed(p[12..16]), Signed(p[16..20]),
                            Signed(p[20..24]), vs, en, fr, seqs, rssis, sQ, vQ, s1, s2));
  }

  // ---------------------------------------------------------- the layout, byte by byte

  function U16(p: seq<Byte>, at: nat): nat
    requires at + 2 <= |p|
  {
    p[at] as nat + 0x100 * p[at + 1] as nat
  }

  function U32(p: seq<Byte>, at: nat): nat
    requires at + 4 <= |p|
  {
    U16(p, at) + 0x1_0000 * U16(p, at + 2)
  }

  function I32(p: seq<Byte>, at: nat): int
    requires at + 4 <= |p|
  {
    if U32(p, at) >= 0x8000_0000 then U32(p, at) - 0x1_0000_0000 else U32(p, at)
  }

  lemma TwoBytes(p: seq<Byte>, at: nat)
    requires at + 2 <= |p|
    ensures Number(p[at..at + 2]) == U16(p, at)
  {
    assert p[at..at + 2][1..] == [p[at + 1]];
    OneByte([p[at + 1]]);
  }

  lemma {:induction false} NumberAppend(a: seq<Byte>, b: seq<Byte>, m: nat)
    requires m == Pow2(8 * |a|)
    ensures Number(a + b) == Number(a) + m * Number(b)
  {
    if a == [] {
      assert a + b == b;
    } else {
      assert (a + b)[1..] == a[1..] + b;
      PowByte(|a| - 1);
      NumberAppend(a[1..], b, Pow2(8 * (|a| - 1)));
      Regrouped(Pow2(8 * (|a| - 1)), Number(b));
    }
  }

  lemma Regrouped(m: nat, n: nat)
    ensures 0x100 * (m * n) == (0x100 * m) * n
  {}

  lemma FourBytes(p: seq<Byte>, at: nat)
    requires at + 4 <= |p|
    ensures Number(p[at..at + 4]) == U32(p, at) < 0x1_0000_0000
    ensures Signed(p[at..at + 4]) == I32(p, at)
  {
    hide Number, Pow2;
    Powers();
    assert p[at..at + 4] == p[at..at + 2] + p[at + 2..at + 4];
    NumberAppend(p[at..at + 2], p[at + 2..at + 4], 0x1_0000);
    TwoBytes(p, at);
    TwoBytes(p, at + 2);
  }

  lemma EightBytes(p: seq<Byte>, at: nat)
    requires at + 8 <= |p|
    ensures Number(p[at..at + 8]) == U32(p, at) + 0x1_0000_0000 * U32(p, at + 4)
  {
    hide Number, Pow2, U32;
    Powers();
    assert p[at..at + 8] == p[at..at + 4] + p[at + 4..at + 8];
    NumberAppend(p[at..at + 4], p[at + 4..at + 8], 0x1_0000_0000);
    FourBytes(p, at);
    FourBytes(p, at + 4);
  }

  /** The header of a payload the decoder accepts. */
  lemma HeaderLayout(p: seq<Byte>)
    requires WellFormed(p)
    ensures var r := Decode(p).value;
            && r.tUs == U32(p, 0) + 0x1_0000_0000 * U32(p, 4)
            && r.state == I32(p, 8) && r.vstate == I32(p, 12) && r.vartheta == I32(p, 16) && r.counter == I32(p, 20)
            && |r.nbrVstates| == |r.nbrSeq| == |r.nbrRssi| == |r.nbrEnabled| == |r.nbrFresh| == p[24] as nat
  {
    hide Number, Signed, I32, U32, Records;
    EightBytes(p, 0);
    FourBytes(p, 8);
    FourBytes(p, 12);
    FourBytes(p, 16);
    FourBytes(p, 20);
  }

  /** Neighbour i's eight bytes: the enabled flag is bit 0, the arrival flag bit 1. */
  lemma RecordLayout(p: seq<Byte>, i: nat)
    requires WellFormed(p) && i < p[24] as nat
    ensures var r, at := Decode(p).value, 25 + 8 * i;
            && i < |r.nbrVstates| == |r.nbrSeq| == |r.nbrRssi| == |r.nbrEnabled| == |r.nbrFresh|
            && at + 8 <= |p|
            && r.nbrVstates[i] == I32(p, at) && r.nbrSeq[i] == U16(p, at + 4)
            && r.nbrRssi[i] == (if p[at + 6] >= 0x80 then p[at + 6] - 0x100 else p[at + 6] as int)
            && (r.nbrEnabled[i] <==> p[at + 7] % 2 == 1)
            && (r.nbrFresh[i] <==> p[at + 7] / 2 % 2 == 1)
  {
    hide Number, Signed, I32, U32, U16, Field;
    var at, b := 25 + 8 * i, RecordBytes(p, i);
    assert b == p[at..at + 8];
    assert b[0..4] == p[at..at + 4];
    assert b[4..6] == p[at + 4..at + 4 + 2];
    assert b[6..7] == [p[at + 6]];
    FourBytes(p, at);
    TwoBytes(p, at + 4);
    OneSigned(p[at + 6]);
    assert Records(p)[i] == DecodeRecord(b);
  }

  lemma OneSigned(b: Byte)
    ensures Signed([b]) == if b >= 0x80 then b - 0x100 else b as int
  {
    Powers();
    OneByte([b]);
    assert Pow2(8 * |[b]|) == 0x100;
  }

  /** What follows the records: nothing, two fields or four. */
  lemma TailLayout(p: seq<Byte>)
    requires WellFormed(p)
    ensures var r, at := Decode(p).value, 25 + 8 * p[24] as nat;
            && (r.stateQ == r.vstateQ == None <==> |p| == at)
            && (r.s1Hat == r.s2Hat == None <==> |p| < at + 16)
            && (|p| >= at + 8 ==> r.stateQ == Some(I32(p, at)) && r.vstateQ == Some(I32(p, at + 4)))
            && (|p| >= at + 16 ==> r.s1Hat == Some(I32(p, at + 8)) && r.s2Hat == Some(I32(p, at + 12)))
  {
    hide Number, Signed, I32, U32, Records;
    var at := 25 + 8 * p[24] as nat;
    if |p| >= at + 8 {
      FourBytes(p, at);
      FourBytes(p, at + 4);
    }
    if |p| >= at + 16 {
      FourBytes(p, at + 8);
      FourBytes(p, at + 12);
    }
  }

  // -------------------------------------------------------------- round trip

  lemma HeaderRoundTrip(r: StateReport, p: seq<Byte>)
    requires InRange(r) && |p| >= 25 && p[..25] == EncodeHeader(r)
    ensures Number(p[0..8]) == r.tUs
    ensures Signed(p[8..12]) == r.state && Signed(p[12..16]) == r.vstate
    ensures Signed(p[16..20]) == r.vartheta && Signed(p[20..24]) == r.counter
    ensures p[24] as nat == |r.nbrVstates|
  {
    hide Signed, SignedLe, Number, Le;
    var h := p[..25];
    assert p[0..8] == h[0..8] == Le(r.tUs, 8);
    assert p[8..12] == h[8..12] == SignedLe(r.state, 4);
    assert p[12..16] == h[12..16] == SignedLe(r.vstate, 4);
    assert p[16..20] == h[16..20] == SignedLe(r.vartheta, 4);
    assert p[20..24] == h[20..24] == SignedLe(r.counter, 4);
    assert p[24..25] == h[24..25] == Le(|r.nbrVstates|, 1);
    NumberLe(r.tUs, 8);
    SignedRoundTrip(r.state, 4);
    SignedRoundTrip(r.vstate, 4);
    SignedRoundTrip(r.vartheta, 4);
    SignedRoundTrip(r.counter, 4);
    NumberLe(|r.nbrVstates|, 1);
    OneByte(p[24..25]);
  }

  lemma OneByte(b: seq<Byte>)
    requires |b| == 1
    ensures Number(b) == b[0]
  {}

  function ReportRecord(r: StateReport, i: nat): Record
    requires InRange(r) && i < |r.nbrVstates|
  {
    assert RecordFits(r, i);
    Record(r.nbrVstates[i], At(r.nbrSeq, i), At(r.nbrRssi, i), r.nbrEnabled[i], r.nbrFresh[i])
  }

  /** The fields of an encoded record, byte ranges apart. */
  lemma RecordParts(r: StateReport, i: nat)
    requires InRange(r) && i < |r.nbrVstates|
    ensures RecordFits(r, i)
    ensures var b := EncodeRecord(r, i);
            && b[0..4] == SignedLe(r.nbrVstates[i], 4) && b[4..6] == Le(At(r.nbrSeq, i), 2)
            && b[6..7] == SignedLe(At(r.nbrRssi, i), 1) && b[7] == Flags(r.nbrEnabled[i], r.nbrFresh[i])
  {
    hide SignedLe, Le, Flags, Pow2;
    assert RecordFits(r, i);
  }

  lemma RecordRoundTrip(r: StateReport, i: nat)
    requires InRange(r) && i < |r.nbrVstates|
    ensures DecodeRecord(EncodeRecord(r, i))
         == ReportRecord(r, i)
  {
    hide Signed, SignedLe, Number, Le, InRange, EncodeRecord, Pow2;
    RecordParts(r, i);
    SignedRoundTrip(r.nbrVstates[i], 4);
    NumberLe(At(r.nbrSeq, i), 2);
    SignedRoundTrip(At(r.nbrRssi, i), 1);
  }

  lemma {:induction false} RecordsAt(r: StateReport, n: nat, i: nat)
    requires InRange(r) && i < n <= |r.nbrVstates|
    ensures EncodeRecords(r, n)[8 * i..8 * i + 8] == EncodeRecord(r, i)
    decreases n
  {
    hide EncodeRecord;
    if i < n - 1 {
      RecordsAt(r, n - 1, i);
      assert EncodeRecords(r, n)[8 * i..8 * i + 8] == EncodeRecords(r, n - 1)[8 * i..8 * i + 8];
    }
  }

  lemma EncodedRecordBytes(r: StateReport, i: nat)
    requires InRange(r) && i < |r.nbrVstates|
    ensures RecordBytes(Encode(r), i) == EncodeRecord(r, i)
  {
    hide EncodeHeader, EncodeRecord, EncodeTail, EncodeRecords;
    var n := |r.nbrVstates|;
    RecordsAt(r, n, i);
    var body := EncodeRecords(r, n);
    assert Encode(r)[25..25 + 8 * n] == body;
    assert Encode(r)[25 + 8 * i..25 + 8 * i + 8] == body[8 * i..8 * i + 8];
  }

  lemma TailRoundTrip(r: StateReport)
    requires InRange(r)
    ensures var t := EncodeTail(r);
            && (|t| >= 8 ==> Signed(t[0..4]) == OrZero(r.stateQ) && Signed(t[4..8]) == OrZero(r.vstateQ))
            && (|t| == 16 ==> Signed(t[8..12]) == OrZero(r.s1Hat) && Signed(t[12..16]) == OrZero(r.s2Hat))
  {
    hide Signed, SignedLe;
    var t := EncodeTail(r);
    if |t| >= 8 {
      assert t[0..4] == SignedLe(OrZero(r.stateQ), 4) && t[4..8] == SignedLe(OrZero(r.vstateQ), 4);
      SignedRoundTrip(OrZero(r.stateQ), 4);
      SignedRoundTrip(OrZero(r.vstateQ), 4);
    }
    if |t| == 16 {
      assert t[8..12] == SignedLe(OrZero(r.s1Hat), 4) && t[12..16] == SignedLe(OrZero(r.s2Hat), 4);
      SignedRoundTrip(OrZero(r.s1Hat), 4);
      SignedRoundTrip(OrZero(r.s2Hat), 4);
    }
  }

  /** What the decoder makes of any report that packs: missing sequence numbers
      and signal strengths read 0, a half-given tail reads as a whole one, and
      more than sixteen neighbours are refused. */
  function Normalised(r: StateReport): Option<StateReport>
    requires InRange(r)
  {
    var n := |r.nbrVstates|;
    var lc := r.s1Hat.Some? || r.s2Hat.Some?;
    var mg := lc || r.stateQ.Some? || r.vstateQ.Some?;
    if n > MAX_NEIGHBORS then None
    else Some(StateReport(
      r.tUs, r.state, r.vstate, r.vartheta, r.counter,
      r.nbrVstates,
      seq(n, i requires 0 <= i < n => (assert RecordFits(r, i); r.nbrEnabled[i])),
      seq(n, i requires 0 <= i < n => (assert RecordFits(r, i); r.nbrFresh[i])),
      seq(n, i requires 0 <= i < n => At(r.nbrSeq, i)),
      seq(n, i requires 0 <= i < n => At(r.nbrRssi, i)),
      if mg then Some(OrZero(r.stateQ)) else None,
      if mg then Some(OrZero(r.vstateQ)) else None,
      if lc then Some(OrZero(r.s1Hat)) else None,
      if lc then Some(OrZero(r.s2Hat)) else None))
  }

  lemma TailFields(r: StateReport)
    requires InRange(r)
    ensures var p := Encode(r);
            var want := 25 + 8 * |r.nbrVstates|;
            && (|p| >= want + 8 ==> Field(p, want) == Some(OrZero(r.stateQ)))
            && (|p| >= want + 8 ==> Field(p, want + 4) == Some(OrZero(r.vstateQ)))
            && (|p| == want + 16 ==> Field(p, want + 8) == Some(OrZero(r.s1Hat)))
            && (|p| == want + 16 ==> Field(p, want + 12) == Some(OrZero(r.s2Hat)))
  {
    hide EncodeHeader, EncodeTail, EncodeRecords, Signed;
    var p, t, want := Encode(r), EncodeTail(r), 25 + 8 * |r.nbrVstates|;
    TailRoundTrip(r);
    assert p[want..] == t;
    if |t| >= 8 {
      assert p[want..want + 4] == t[0..4] && p[want + 4..want + 8] == t[4..8];
    }
    if |t| == 16 {
      assert p[want + 8..want + 12] == t[8..12] && p[want + 12..want + 16] == t[12..16];
    }
  }

  lemma DecodeEncode(r: StateReport)
    requires InRange(r)
    ensures Decode(Encode(r)) == Normalised(r)
  {
    hide EncodeHeader, EncodeTail, EncodeRecords, EncodeRecord, Signed, Number, DecodeRecord, Field, FitsSigned, FitsUnsigned;
    var p, n := Encode(r), |r.nbrVstates|;
    assert p[..25] == EncodeHeader(r);
    HeaderRoundTrip(r, p);
    TailFields(r);
    if n <= MAX_NEIGHBORS {
      forall i | 0 <= i < n
        ensures Records(p)[i] == ReportRecord(r, i)
      {
        EncodedRecordBytes(r, i);
        RecordRoundTrip(r, i);
      }
      var d, e := Decode(p).value, Normalised(r).value;
      assert d.nbrVstates == e.nbrVstates && d.nbrEnabled == e.nbrEnabled && d.nbrFresh == e.nbrFresh;
      assert d.nbrSeq == e.nbrSeq && d.nbrRssi == e.nbrRssi;
    }
  }

  /** A report survives its payload unchanged exactly when it is canonical. */
  lemma RoundTripIff(r: StateReport)
    requires InRange(r)
    ensures Decode(Encode(r)) == Some(r) <==> Canonical(r)
  {
    hide Decode, Encode;
    DecodeEncode(r);
    if Canonical(r) {
      var e := Normalised(r).value;
      assert e.nbrEnabled == r.nbrEnabled && e.nbrFresh == r.nbrFresh;
      assert e.nbrSeq == r.nbrSeq && e.nbrRssi == r.nbrRssi;
    }
  }

  /** The three layouts cannot be confused: canonical reports with one payload are one report. */
  lemma LayoutsUnambiguous(a: StateReport, b: StateReport)
    requires InRange(a) && InRange(b) && Canonical(a) && Canonical(b)
    requires Encode(a) == Encode(b)
    ensures a == b
  {
    RoundTripIff(a);
    RoundTripIff(b);
  }

  // ------------------------------------------------- what the decoder accepts

  lemma DecodedRecordFits(p: seq<Byte>, i: nat)
    requires WellFormed(p) && i < p[24] as nat
    ensures RecordFits(Decode(p).value, i)
  {
    hide Signed, Number, FitsSigned, FitsUnsigned;
    var b := RecordBytes(p, i);
    SignedBack(b[0..4]);
    SignedBack(b[6..7]);
    UnsignedFits(b[4..6]);
  }

  lemma DecodedHeaderFits(p: seq<Byte>)
    requires WellFormed(p)
    ensures var r := Decode(p).value;
            && FitsUnsigned(r.tUs, 8) && FitsUnsigned(|r.nbrVstates|, 1)
            && FitsSigned(r.state, 4) && FitsSigned(r.vstate, 4) && FitsSigned(r.vartheta, 4) && FitsSigned(r.counter, 4)
  {
    hide Signed, Number, FitsSigned, FitsUnsigned, DecodeRecord;
    SignedBack(p[8..12]);
    SignedBack(p[12..16]);
    SignedBack(p[16..20]);
    SignedBack(p[20..24]);
    UnsignedFits(p[0..8]);
    UnsignedFits([p[24]]);
    OneByte([p[24]]);
  }

  lemma FieldFits(p: seq<Byte>, at: nat)
    requires at + 4 <= |p|
    ensures FitsSigned(Field(p, at).value, 4)
  {
    hide Signed, FitsSigned;
    SignedBack(p[at..at + 4]);
  }

  lemma DecodedTailFits(p: seq<Byte>)
    requires WellFormed(p)
    ensures var r := Decode(p).value;
            && FitsSigned(OrZero(r.stateQ), 4) && FitsSigned(OrZero(r.vstateQ), 4)
            && FitsSigned(OrZero(r.s1Hat), 4) && FitsSigned(OrZero(r.s2Hat), 4)
  {
    hide Signed, Number, FitsSigned, DecodeRecord;
    var w := 25 + 8 * (p[24] as nat);
    ZeroFits();
    if |p| >= w + 8 {
      FieldFits(p, w);
      FieldFits(p, w + 4);
      if |p| > w + 8 {
        FieldFits(p, w + 8);
        FieldFits(p, w + 12);
      }
    }
  }

  lemma DecodedFits(p: seq<Byte>)
    requires WellFormed(p)
    ensures InRange(Decode(p).value) && Canonical(Decode(p).value)
  {
    hide Signed, Number, FitsSigned, FitsUnsigned, RecordFits, DecodeRecord, OrZero;
    DecodedHeaderFits(p);
    DecodedTailFits(p);
    forall i | 0 <= i < p[24] as nat ensures RecordFits(Decode(p).value, i) {
      DecodedRecordFits(p, i);
    }
  }

  lemma ZeroFits()
    ensures FitsSigned(0, 4)
  {}

  lemma UnsignedFits(b: seq<Byte>)
    ensures FitsUnsigned(Number(b), |b|)
  {
    LeNumber(b);
  }

  /** Only the two defined flag bits of a record are kept. */
  ghost predicate FlagsClean(p: seq<Byte>)
    requires WellFormed(p)
  {
    forall i | 0 <= i < p[24] as nat :: RecordBytes(p, i)[7] < 4
  }

  lemma RecordBack(r: StateReport, i: nat, b: seq<Byte>)
    requires InRange(r) && i < |r.nbrVstates| && i < |r.nbrSeq| && i < |r.nbrRssi| && |b| == 8
    requires RecordFits(r, i)
    requires DecodeRecord(b) == Record(r.nbrVstates[i], r.nbrSeq[i], r.nbrRssi[i], r.nbrEnabled[i], r.nbrFresh[i])
    ensures EncodeRecord(r, i) == b <==> b[7] < 4
  {
    hide Signed, SignedLe, Number, Le, FitsSigned, FitsUnsigned;
    SignedBack(b[0..4]);
    LeNumber(b[4..6]);
    SignedBack(b[6..7]);
    var e := EncodeRecord(r, i);
    var f := Flags(r.nbrEnabled[i], r.nbrFresh[i]);
    assert f == b[7] % 4;
    assert e == b[0..4] + b[4..6] + b[6..7] + [f];
    assert b == b[0..4] + b[4..6] + b[6..7] + [b[7]];
    if e == b {
      assert e[7] == f;
    }
  }

  lemma {:induction false} RecordsBack(r: StateReport, p: seq<Byte>, n: nat)
    requires WellFormed(p) && Decode(p) == Some(r) && InRange(r)
    requires n <= |r.nbrVstates| == p[24] as nat
    ensures EncodeRecords(r, n) == p[25..25 + 8 * n] <==> forall i | 0 <= i < n :: RecordBytes(p, i)[7] < 4
    decreases n
  {
    hide EncodeRecord, DecodeRecord, InRange, Decode, RecordFits;
    if n > 0 {
      var k := n - 1;
      RecordsBack(r, p, k);
      LastRecordBack(r, p, k);
      var x, y := EncodeRecords(r, k), EncodeRecord(r, k);
      var u, v := p[25..25 + 8 * k], RecordBytes(p, k);
      assert 8 * n == 8 * k + 8;
      Join(p, 25, 25 + 8 * k, 25 + 8 * n);
      AppendEqual(x, y, u, v);
    }
  }

  lemma AppendEqual(x: seq<Byte>, y: seq<Byte>, u: seq<Byte>, v: seq<Byte>)
    requires |x| == |u|
    ensures x + y == u + v <==> x == u && y == v
  {
    if x + y == u + v {
      assert x == (x + y)[..|x|] && u == (u + v)[..|u|];
      assert y == (x + y)[|x|..] && v == (u + v)[|u|..];
    }
  }

  lemma LastRecordBack(r: StateReport, p: seq<Byte>, k: nat)
    requires WellFormed(p) && Decode(p) == Some(r) && InRange(r) && k < |r.nbrVstates| == p[24] as nat
    ensures EncodeRecord(r, k) == RecordBytes(p, k) <==> RecordBytes(p, k)[7] < 4
  {
    hide DecodeRecord, EncodeRecord;
    InRangeRecord(r, k);
    assert DecodeRecord(RecordBytes(p, k)) == Records(p)[k];
    RecordBack(r, k, RecordBytes(p, k));
  }

  lemma InRangeRecord(r: StateReport, i: nat)
    requires InRange(r) && i < |r.nbrVstates|
    ensures RecordFits(r, i)
  {}

  lemma DecodedHeader(p: seq<Byte>)
    requires WellFormed(p)
    ensures |p| >= 25
    ensures var r := Decode(p).value;
            && r.tUs == Number(p[0..8]) && r.state == Signed(p[8..12]) && r.vstate == Signed(p[12..16])
            && r.vartheta == Signed(p[16..20]) && r.counter == Signed(p[20..24]) && |r.nbrVstates| == p[24] as nat
  {
    hide Signed, Number, Field, DecodeRecord;
  }

  lemma HeaderBack(p: seq<Byte>)
    requires WellFormed(p) && InRange(Decode(p).value)
    ensures EncodeHeader(Decode(p).value) == p[..25]
  {
    hide Signed, SignedLe, Number, Le, InRange, WellFormed, Records, Field;
    DecodedHeader(p);
    LeNumber(p[0..8]);
    SignedBack(p[8..12]);
    SignedBack(p[12..16]);
    SignedBack(p[16..20]);
    SignedBack(p[20..24]);
    LeNumber(p[24..25]);
    OneByte(p[24..25]);
    HeaderSlices(p);
  }

  lemma Join(p: seq<Byte>, a: nat, b: nat, c: nat)
    requires a <= b <= c <= |p|
    ensures p[a..b] + p[b..c] == p[a..c]
  {}

  lemma HeaderSlices(p: seq<Byte>)
    requires |p| >= 25
    ensures p[..25] == p[0..8] + p[8..12] + p[12..16] + p[16..20] + p[20..24] + p[24..25]
  {
    Join(p, 0, 8, 12);
    Join(p, 0, 12, 16);
    Join(p, 0, 16, 20);
    Join(p, 0, 20, 24);
    Join(p, 0, 24, 25);
  }

  lemma TailBack(p: seq<Byte>)
    requires WellFormed(p) && InRange(Decode(p).value)
    ensures EncodeTail(Decode(p).value) == p[25 + 8 * (p[24] as nat)..]
  {
    hide Signed, SignedLe, InRange;
    var w := 25 + 8 * (p[24] as nat);
    if |p| >= w + 8 {
      SignedBack(p[w..w + 4]);
      SignedBack(p[w + 4..w + 8]);
      if |p| == w + 8 {
        assert p[w..] == p[w..w + 4] + p[w + 4..w + 8];
      } else {
        SignedBack(p[w + 8..w + 12]);
        SignedBack(p[w + 12..w + 16]);
        assert p[w..] == p[w..w + 4] + p[w + 4..w + 8] + p[w + 8..w + 12] + p[w + 12..w + 16];
      }
    }
  }

  /** Exactly the stated lengths are accepted; an accepted payload decodes to a
      canonical report, and printing that report gives the payload back exactly
      when its unused flag bits were clear. */
  lemma DecodeThenEncode(p: seq<Byte>)
    ensures Decode(p).Some? <==> WellFormed(p)
    ensures Decode(p).Some? ==> InRange(Decode(p).value) && Canonical(Decode(p).value)
    ensures Decode(p).Some? ==> (Encode(Decode(p).value) == p <==> FlagsClean(p))
  {
    if WellFormed(p) {
      Reencode(p);
    }
  }

  lemma Reencode(p: seq<Byte>)
    requires WellFormed(p)
    ensures Decode(p).Some? && InRange(Decode(p).value) && Canonical(Decode(p).value)
    ensures Encode(Decode(p).value) == p <==> FlagsClean(p)
  {
    hide InRange, EncodeHeader, EncodeRecords, EncodeTail, Signed, Number;
    DecodedFits(p);
    HeaderBack(p);
    TailBack(p);
    var r, n := Decode(p).value, p[24] as nat;
    RecordsBack(r, p, n);
    assert p == p[..25] + p[25..25 + 8 * n] + p[25 + 8 * n..];
    AppendEqual(EncodeHeader(r) + EncodeRecords(r, n), EncodeTail(r), p[..25] + p[25..25 + 8 * n], p[25 + 8 * n..]);
    AppendEqual(EncodeHeader(r), EncodeRecords(r, n), p[..25], p[25..25 + 8 * n]);
  }

  /** Through the whole link: a canonical report is printed as a payload, framed,
      parsed by any parser between frames, and decoded unchanged. */
  lemma SurvivesTheLink(p: F.Parser, r: StateReport)
    requires !p.InFrame() && InRange(r) && Canonical(r)
    ensures var f := F.Frame(0x78, Encode(r));
            && F.Legal(f)
            && F.Yield(p, F.Encode(f)) == [f]
            && Decode(f.payload) == Some(r)
  {
    RoundTripIff(r);
    F.FrameParsed(p, F.Frame(0x78, Encode(r)));
  }
}
