/** CRC-16/CCITT-FALSE as the serial protocol computes it, and what it detects.

    The reference is the bit-serial division register over GF(2): one message
    bit per step, most significant bit of each byte first. `Crc16` is the
    byte-at-a-time code on integers; it refines the reference. The register is
    linear, injective, and, because the generator x^16 + x^12 + x^5 + 1 has an
    even number of terms, it preserves parity.
  */
module Crc {
  import opened Gf2

  type Byte = b: int | 0 <= b < 256

  type Reg = p: Bits | |p| == 16 witness [false, false, false, false, false, false, false, false,
                                          false, false, false, false, false, false, false, false]

  // ------------------------------------------------------------ the reference

  /** Multiplication by x modulo x^16 + x^12 + x^5 + 1. */
  function Shift(c: Reg): Reg {
    seq(16, i requires 0 <= i < 16 => (i > 0 && c[i - 1]) != (c[15] && (i == 0 || i == 5 || i == 12)))
  }

  function PushBit(c: Reg, bit: bool): Reg {
    Shift(c[15 := c[15] != bit])
  }

  function Run(c: Reg, msg: Bits): Reg
    decreases |msg|
  {
    if msg == [] then c else Run(PushBit(c, msg[0]), msg[1..])
  }

  /** The bits of a byte, most significant first. */
  function ByteBits(b: Byte): (r: Bits)
    ensures |r| == 8
  {
    var p := Poly(b, 8);
    [p[7], p[6], p[5], p[4], p[3], p[2], p[1], p[0]]
  }

  function Message(data: seq<Byte>): (r: Bits)
    ensures |r| == 8 * |data|
  {
    if data == [] then [] else ByteBits(data[0]) + Message(data[1..])
  }

  function Init(): Reg {
    seq(16, _ => true)
  }

  /** The checksum of a byte string: the register's final content as a number. */
  function Of(data: seq<Byte>): nat {
    Value(Run(Init(), Message(data)))
  }

  lemma OfIsRemainder(data: seq<Byte>)
    ensures Of(data) < 0x10000 && Poly(Of(data), 16) == Run(Init(), Message(data))
  {
    var r := Run(Init(), Message(data));
    ValueBound(r);
    Pow16();
    PolyValue(r);
  }

  lemma Pow16()
    ensures Pow2(8) == 256 && Pow2(15) == 0x8000 && Pow2(16) == 0x10000
  {
    assert Pow2(4) == 16;
    assert Pow2(8) == 256;
    assert Pow2(12) == 4096;
  }

  // --------------------------------------------------------- linear algebra

  lemma PushLinear(c: Reg, d: Reg, a: bool, b: bool)
    ensures PushBit(Add(c, d), a != b) == Add(PushBit(c, a), PushBit(d, b))
  {}

  /** The register is linear in the initial value and the message jointly. */
  lemma {:induction false} RunLinear(c: Reg, d: Reg, a: Bits, b: Bits)
    requires |a| == |b|
    ensures Run(Add(c, d), Add(a, b)) == Add(Run(c, a), Run(d, b))
    decreases |a|
  {
    if a != [] {
      assert Add(a, b)[1..] == Add(a[1..], b[1..]);
      PushLinear(c, d, a[0], b[0]);
      RunLinear(PushBit(c, a[0]), PushBit(d, b[0]), a[1..], b[1..]);
    }
  }

  lemma {:induction false} RunAppend(c: Reg, a: Bits, b: Bits)
    ensures Run(c, a + b) == Run(Run(c, a), b)
    decreases |a|
  {
    if a == [] {
      assert a + b == b;
    } else {
      assert (a + b)[1..] == a[1..] + b;
      RunAppend(PushBit(c, a[0]), a[1..], b);
    }
  }

  lemma ShiftInjective(c: Reg, d: Reg)
    requires Shift(c) == Shift(d)
    ensures c == d
  {
    assert c[15] == Shift(c)[0] && d[15] == Shift(d)[0];
    forall i | 0 <= i < 15 ensures c[i] == d[i] {
      assert Shift(c)[i + 1] == Shift(d)[i + 1];
    }
  }

  lemma {:induction false} RunInjective(c: Reg, d: Reg, msg: Bits)
    requires Run(c, msg) == Run(d, msg)
    ensures c == d
    decreases |msg|
  {
    if msg != [] {
      RunInjective(PushBit(c, msg[0]), PushBit(d, msg[0]), msg[1..]);
      ShiftInjective(c[15 := c[15] != msg[0]], d[15 := d[15] != msg[0]]);
      forall i | 0 <= i < 16 ensures c[i] == d[i] {
        assert c[15 := c[15] != msg[0]][i] == d[15 := d[15] != msg[0]][i];
      }
    }
  }

  lemma {:induction false} RunZero(n: nat)
    ensures Run(Zero(16), Zero(n)) == Zero(16)
    decreases n
  {
    if n > 0 {
      assert Zero(n)[1..] == Zero(n - 1);
      assert PushBit(Zero(16), false) == Zero(16);
      RunZero(n - 1);
    }
  }

  // ------------------------------------------------------------------- parity

  lemma ShiftParity(c: Reg)
    ensures Weight(Shift(c)) % 2 == Weight(c) % 2
  {
    var top := [c[15]];
    var gen := seq(16, i requires 0 <= i < 16 => c[15] && (i == 0 || i == 5 || i == 12));
    var up := [false] + c[..15];
    assert Shift(c) == Add(up, gen);
    WeightAdd(up, gen);
    assert up[1..] == c[..15];
    assert c == c[..15] + top;
    WeightAppend(c[..15], top);
    GenWeight(c[15], gen);
  }

  lemma GenShape(t: bool, gen: Bits)
    requires gen == seq(16, i requires 0 <= i < 16 => t && (i == 0 || i == 5 || i == 12))
    ensures gen == [t] + Zero(4) + [t] + Zero(6) + [t] + Zero(3)
  {}

  lemma WeightOne(t: bool)
    ensures Weight([t]) == if t then 1 else 0
  {}

  lemma GenWeight(t: bool, gen: Bits)
    requires gen == seq(16, i requires 0 <= i < 16 => t && (i == 0 || i == 5 || i == 12))
    ensures Weight(gen) % 2 == (if t then 1 else 0)
  {
    hide Zero, Weight;
    GenShape(t, gen);
    WeightOne(t);
    WeightZero(4);
    WeightZero(6);
    WeightZero(3);
    WeightAppend([t] + Zero(4) + [t] + Zero(6) + [t], Zero(3));
    WeightAppend([t] + Zero(4) + [t] + Zero(6), [t]);
    WeightAppend([t] + Zero(4) + [t], Zero(6));
    WeightAppend([t] + Zero(4), [t]);
    WeightAppend([t], Zero(4));
  }

  lemma PushParity(c: Reg, bit: bool)
    ensures Weight(PushBit(c, bit)) % 2 == (Weight(c) + if bit then 1 else 0) % 2
  {
    var d := c[15 := c[15] != bit];
    ShiftParity(d);
    assert c == c[..15] + [c[15]] && d == c[..15] + [d[15]];
    WeightAppend(c[..15], [c[15]]);
    WeightAppend(c[..15], [d[15]]);
  }

  lemma {:induction false} RunParity(c: Reg, msg: Bits)
    ensures Weight(Run(c, msg)) % 2 == (Weight(c) + Weight(msg)) % 2
    decreases |msg|
  {
    if msg != [] {
      PushParity(c, msg[0]);
      RunParity(PushBit(c, msg[0]), msg[1..]);
    }
  }

  // --------------------------------------------------- loading bits at the top

  /** The register that holds up to sixteen message bits at its top. */
  function Load(w: Bits): Reg
    requires |w| <= 16
  {
    seq(16, i requires 0 <= i < 16 => 15 - i < |w| && w[15 - i])
  }

  /** Adding a run of bits to the register and then shifting is the same as feeding them. */
  lemma {:induction false} RunLoad(c: Reg, w: Bits)
    requires |w| <= 16
    ensures Run(c, w) == Run(Add(c, Load(w)), Zero(|w|))
    decreases |w|
  {
    if w == [] {
      assert Add(c, Load(w)) == c;
      assert Zero(0) == [];
    } else {
      var tail := w[1..];
      assert Zero(|w|)[1..] == Zero(|tail|);
      assert PushBit(Add(c, Load(w)), false) == Add(PushBit(c, w[0]), Load(tail)) by {
        forall i | 0 <= i < 16
          ensures PushBit(Add(c, Load(w)), false)[i] == Add(PushBit(c, w[0]), Load(tail))[i]
        {
          if i > 0 {
            assert Load(w)[i - 1] == Load(tail)[i];
          }
        }
      }
      RunLoad(PushBit(c, w[0]), tail);
    }
  }

  // ----------------------------------------------------- the code on integers

  function BitStep(crc: nat): nat {
    if (crc / 0x8000) % 2 == 1 then Xor(crc * 2, 0x1021) % 0x10000 else (crc * 2) % 0x10000
  }

  function BitSteps(crc: nat, n: nat): nat
    decreases n, crc
  {
    if n == 0 then crc else BitSteps(BitStep(crc), n - 1)
  }

  lemma GeneratorPoly()
    ensures Poly(0x1021, 16) == seq(16, i requires 0 <= i < 16 => i == 0 || i == 5 || i == 12)
  {
    assert Pow2(5) == 32 && Pow2(7) == 128;
    PolyFields(1, 0x81, 5, 11);
    PolyFields(1, 1, 7, 4);
    PolySmall(1, 5);
    PolySmall(1, 7);
    PolySmall(1, 4);
  }

  /** The reduction modulo 2^16 keeps the low sixteen coefficients. */
  lemma Poly16Mod(n: nat)
    ensures Poly(n % 0x10000, 16) == Poly(n, 16)
  {
    Pow16();
    PolyMod(n, 16);
  }

  lemma DoublePoly(crc: nat)
    requires crc < 0x10000
    ensures Poly((crc * 2) % 0x10000, 16) == [false] + Poly(crc, 16)[..15]
  {
    Poly16Mod(2 * crc);
    PolyDouble(crc, 16);
    PolyPrefix(crc, 15, 1);
  }

  lemma Top16(crc: nat)
    requires crc < 0x10000
    ensures Poly(crc, 16)[15] <==> (crc / 0x8000) % 2 == 1
  {
    Pow16();
    TopBit(crc, 15);
  }

  lemma BitStepRefines(crc: nat)
    requires crc < 0x10000
    ensures BitStep(crc) < 0x10000 && Poly(BitStep(crc), 16) == Shift(Poly(crc, 16))
  {
    hide Poly, Xor, Pow2;
    var p := Poly(crc, 16);
    var doubled := [false] + p[..15];
    Top16(crc);
    DoublePoly(crc);
    Poly16Mod(crc * 2);
    if p[15] {
      var x := Xor(crc * 2, 0x1021);
      XorPoly(crc * 2, 0x1021, 16);
      Poly16Mod(x);
      GeneratorPoly();
      assert Poly(x % 0x10000, 16) == Shift(p);
    } else {
      assert doubled == Shift(p);
    }
  }

  lemma {:induction false} BitStepsRefine(crc: nat, n: nat)
    requires crc < 0x10000
    ensures BitSteps(crc, n) < 0x10000
    ensures Poly(BitSteps(crc, n), 16) == Run(Poly(crc, 16), Zero(n))
    decreases n
  {
    hide BitStep, Poly, Run, Shift, PushBit;
    if n == 0 {
      RunNothing(Poly(crc, 16));
    } else {
      BitStepRefines(crc);
      BitStepsRefine(BitStep(crc), n - 1);
      RunZeroBit(Poly(crc, 16), n);
    }
  }

  lemma RunNothing(c: Reg)
    ensures Run(c, Zero(0)) == c
  {}

  /** A zero bit only shifts. */
  lemma RunZeroBit(c: Reg, n: nat)
    requires n > 0
    ensures Run(c, Zero(n)) == Run(Shift(c), Zero(n - 1))
  {
    assert c[15 := c[15] != false] == c;
    assert Zero(n)[1..] == Zero(n - 1);
  }

  lemma HighPoly(b: Byte)
    ensures b * 0x100 < 0x10000 && Poly(b * 0x100, 16) == Load(ByteBits(b))
  {
    hide Pow2, Poly;
    Pow16();
    PolyShift(b, 8, 8);
    assert Zero(8) + Poly(b, 8) == Load(ByteBits(b));
  }

  lemma Xor16(a: nat, b: nat)
    requires a < 0x10000 && b < 0x10000
    ensures Xor(a, b) < 0x10000 && Poly(Xor(a, b), 16) == Add(Poly(a, 16), Poly(b, 16))
  {
    Pow16();
    XorBound(a, b, 16);
    XorPoly(a, b, 16);
  }

  lemma {:induction false} PolyOnes(n: nat, width: nat)
    requires n + 1 == Pow2(width)
    ensures Poly(n, width) == seq(width, _ => true)
    decreases width
  {
    if width > 0 {
      PolyOnes(n / 2, width - 1);
    }
  }

  lemma InitPoly(crc: nat)
    requires crc == 0xFFFF
    ensures Poly(crc, 16) == Init()
  {
    Pow16();
    PolyOnes(crc, 16);
  }

  /** One byte of the code is eight message bits of the reference. */
  lemma ByteRefines(crc: nat, b: Byte, out: nat)
    requires crc < 0x10000 && out == BitSteps(Xor(crc, b * 0x100), 8)
    ensures out < 0x10000 && Poly(out, 16) == Run(Poly(crc, 16), ByteBits(b))
  {
    HighPoly(b);
    Xor16(crc, b * 0x100);
    BitStepsRefine(Xor(crc, b * 0x100), 8);
    RunLoad(Poly(crc, 16), ByteBits(b));
  }

  lemma MessageStep(c: Reg, data: seq<Byte>, i: nat)
    requires i < |data|
    ensures Run(c, Message(data[i..])) == Run(Run(c, ByteBits(data[i])), Message(data[i + 1..]))
  {
    assert data[i..][1..] == data[i + 1..];
    RunAppend(c, ByteBits(data[i]), Message(data[i + 1..]));
  }

  lemma CrcUnique(crc: nat, data: seq<Byte>)
    requires crc < 0x10000 && Poly(crc, 16) == Run(Init(), Message(data))
    ensures crc == Of(data)
  {
    Pow16();
    OfIsRemainder(data);
    PolyInjective(crc, Of(data), 16);
  }

  /** The register holds what the bytes before `i` leave. */
  ghost predicate Partial(crc: nat, data: seq<Byte>, i: nat) {
    && i <= |data|
    && crc < 0x10000
    && Run(Poly(crc, 16), Message(data[i..])) == Run(Init(), Message(data))
  }

  lemma PartialStart(crc: nat, data: seq<Byte>)
    requires crc == 0xFFFF
    ensures Partial(crc, data, 0)
  {
    InitPoly(crc);
    assert data[0..] == data;
  }

  lemma PartialStep(crc: nat, data: seq<Byte>, i: nat, out: nat)
    requires Partial(crc, data, i) && i < |data|
    requires out == BitSteps(Xor(crc, (data[i] as nat) * 0x100), 8)
    ensures Partial(out, data, i + 1)
  {
    MessageStep(Poly(crc, 16), data, i);
    ByteRefines(crc, data[i], out);
  }

  lemma PartialDone(crc: nat, data: seq<Byte>)
    requires Partial(crc, data, |data|)
    ensures crc == Of(data) && crc < 0x10000
  {
    assert Message(data[|data|..]) == [];
    CrcUnique(crc, data);
  }

  method Crc16(data: seq<Byte>) returns (crc: nat)
    ensures crc == Of(data) && crc < 0x10000
  {
    hide Partial;
    crc := 0xFFFF;
    PartialStart(crc, data);
    for i := 0 to |data|
      invariant Partial(crc, data, i)
    {
      ghost var before := crc;
      crc := Xor(crc, (data[i] as nat) * 0x100);
      ghost var entry := crc;
      for k := 0 to 8
        invariant BitSteps(crc, 8 - k) == BitSteps(entry, 8)
      {
        crc := if (crc / 0x8000) % 2 == 1 then Xor(crc * 2, 0x1021) % 0x10000 else (crc * 2) % 0x10000;
      }
      PartialStep(before, data, i, crc);
    }
    PartialDone(crc, data);
  }

  // ----------------------------------------------------------- error detection

  lemma {:induction false} MessageAppend(a: seq<Byte>, b: seq<Byte>)
    ensures Message(a + b) == Message(a) + Message(b)
  {
    if a == [] {
      assert a + b == b;
    } else {
      assert (a + b)[1..] == a[1..] + b;
      MessageAppend(a[1..], b);
    }
  }

  /** The bits in which two checksum values differ. */
  function CrcDiff(c: nat, d: nat): Reg {
    Add(Poly(c, 16), Poly(d, 16))
  }

  /** The bits in which two payloads of one length differ. */
  function PayloadDiff(p: seq<Byte>, q: seq<Byte>): (r: Bits)
    requires |p| == |q|
    ensures |r| == 8 * |p|
  {
    Add(Message(p), Message(q))
  }

  lemma AddSelf(p: Bits)
    ensures Add(p, p) == Zero(|p|)
  {}

  lemma AddCancels(p: Bits, q: Bits, r: Bits)
    requires |p| == |q| == |r|
    ensures Add(p, r) == Add(p, q) <==> q == r
  {
    if Add(p, r) == Add(p, q) {
      forall i | 0 <= i < |p| ensures q[i] == r[i] {
        assert Add(p, r)[i] == Add(p, q)[i];
      }
    }
  }

  /** Behind one head, the checksums of two payloads differ by the register
      their difference alone would leave. */
  lemma CrcOfDifference(head: seq<Byte>, p: seq<Byte>, q: seq<Byte>)
    requires |p| == |q|
    ensures CrcDiff(Of(head + p), Of(head + q)) == Run(Zero(16), PayloadDiff(p, q))
  {
    OfIsRemainder(head + p);
    OfIsRemainder(head + q);
    MessageAppend(head, p);
    MessageAppend(head, q);
    RunAppend(Init(), Message(head), Message(p));
    RunAppend(Init(), Message(head), Message(q));
    var c := Run(Init(), Message(head));
    AddSelf(c);
    RunLinear(c, c, Message(p), Message(q));
  }

  /** A damaged (payload, checksum) pair still passes exactly when the damage is
      itself a codeword: the checksum damage equals the register the payload
      damage leaves. */
  lemma UndetectedIff(head: seq<Byte>, p: seq<Byte>, q: seq<Byte>, received: nat)
    requires |p| == |q| && received < 0x10000
    ensures Of(head + q) == received
       <==> CrcDiff(Of(head + p), received) == Run(Zero(16), PayloadDiff(p, q))
  {
    CrcOfDifference(head, p, q);
    OfIsRemainder(head + q);
    AddCancels(Poly(Of(head + p), 16), Poly(Of(head + q), 16), Poly(received, 16));
    if Poly(received, 16) == Poly(Of(head + q), 16) {
      Pow16();
      PolyInjective(received, Of(head + q), 16);
    }
  }

  lemma ZeroRunParity(diff: Bits)
    ensures Weight(Run(Zero(16), diff)) % 2 == Weight(diff) % 2
  {
    RunParity(Zero(16), diff);
    WeightZero(16);
  }

  /** Every odd number of flipped bits across payload and checksum is caught. */
  lemma OddFlipsDetected(head: seq<Byte>, p: seq<Byte>, q: seq<Byte>, received: nat)
    requires |p| == |q| && received < 0x10000
    requires (Weight(PayloadDiff(p, q)) + Weight(CrcDiff(Of(head + p), received))) % 2 == 1
    ensures Of(head + q) != received
  {
    hide Run, Weight, Of, PayloadDiff, CrcDiff;
    ZeroRunParity(PayloadDiff(p, q));
    UndetectedIff(head, p, q, received);
  }

  /** Damage confined to `burst`, at most sixteen consecutive payload bits anywhere. */
  ghost predicate IsBurst(diff: Bits, start: nat, burst: Bits) {
    && 0 < |burst| <= 16
    && start + |burst| <= |diff|
    && diff == Zero(start) + burst + Zero(|diff| - start - |burst|)
    && burst != Zero(|burst|)
  }

  lemma BurstDetected(head: seq<Byte>, p: seq<Byte>, q: seq<Byte>, start: nat, burst: Bits)
    requires |p| == |q|
    requires IsBurst(PayloadDiff(p, q), start, burst)
    ensures Of(head + q) != Of(head + p)
  {
    hide Message, Of, Shift;
    var diff := PayloadDiff(p, q);
    var rest := |diff| - start - |burst|;
    if Of(head + q) == Of(head + p) {
      OfIsRemainder(head + p);
      UndetectedIff(head, p, q, Of(head + p));
      AddSelf(Poly(Of(head + p), 16));
      RunAppend(Zero(16), Zero(start) + burst, Zero(rest));
      RunAppend(Zero(16), Zero(start), burst);
      RunZero(start);
      RunZero(rest);
      RunInjective(Run(Zero(16), burst), Zero(16), Zero(rest));
      RunLoad(Zero(16), burst);
      RunZero(|burst|);
      RunInjective(Add(Zero(16), Load(burst)), Zero(16), Zero(|burst|));
      forall k | 0 <= k < |burst| ensures !burst[k] {
        assert Add(Zero(16), Load(burst))[15 - k] == Zero(16)[15 - k];
      }
    }
  }

  lemma DiffParts(pre: seq<Byte>, a: seq<Byte>, b: seq<Byte>, suf: seq<Byte>)
    requires |a| == |b|
    ensures PayloadDiff(pre + a + suf, pre + b + suf)
         == Zero(8 * |pre|) + PayloadDiff(a, b) + Zero(8 * |suf|)
  {
    MessageAppend(pre + a, suf);
    MessageAppend(pre, a);
    MessageAppend(pre + b, suf);
    MessageAppend(pre, b);
    AddFrame(Message(pre), Message(a), Message(b), Message(suf));
  }

  lemma DiffAppend(a: seq<Byte>, b: seq<Byte>, c: seq<Byte>, d: seq<Byte>)
    requires |a| == |c| && |b| == |d|
    ensures PayloadDiff(a + b, c + d) == PayloadDiff(a, c) + PayloadDiff(b, d)
  {
    MessageAppend(a, b);
    MessageAppend(c, d);
  }

  /** Damage to the two bytes of a checksum field flips as many bits as it does in the number. */
  lemma FieldWeight(c: nat, lo: Byte, hi: Byte)
    requires c < 0x10000
    ensures Weight(PayloadDiff([c % 0x100, c / 0x100], [lo, hi])) == Weight(CrcDiff(c, lo + (hi as nat) * 0x100))
  {
    hide Poly, Weight, ByteBits, Pow2;
    Pow16();
    PolyFields(c % 0x100, c / 0x100, 8, 8);
    PolyFields(lo, hi, 8, 8);
    TwoBytes(c % 0x100, c / 0x100);
    TwoBytes(lo, hi);
    var x, y, u, v := Poly(c % 0x100, 8), Poly(c / 0x100, 8), Poly(lo, 8), Poly(hi, 8);
    assert Add(x + y, u + v) == Add(x, u) + Add(y, v);
    WeightAppend(Add(x, u), Add(y, v));
    var p, q := Add(ByteBits(c % 0x100), ByteBits(lo)), Add(ByteBits(c / 0x100), ByteBits(hi));
    assert PayloadDiff([c % 0x100, c / 0x100], [lo, hi]) == p + q;
    WeightAppend(p, q);
    WeightFlipped(c % 0x100, lo);
    WeightFlipped(c / 0x100, hi);
  }

  lemma TwoBytes(lo: Byte, hi: Byte)
    ensures Message([lo, hi]) == ByteBits(lo) + ByteBits(hi)
  {
    assert [lo, hi][1..] == [hi] && [hi][1..] == [];
  }

  lemma WeightFlipped(a: Byte, b: Byte)
    ensures Weight(Add(ByteBits(a), ByteBits(b))) == Weight(Add(Poly(a, 8), Poly(b, 8)))
  {
    hide Poly, Weight;
    WeightReversed(Add(Poly(a, 8), Poly(b, 8)), Add(ByteBits(a), ByteBits(b)));
  }

  lemma {:induction false} WeightReversed(p: Bits, q: Bits)
    requires |p| == |q| && forall i | 0 <= i < |p| :: q[i] == p[|p| - 1 - i]
    ensures Weight(p) == Weight(q)
  {
    if p != [] {
      var n := |p| - 1;
      WeightReversed(p[1..], q[..n]);
      assert q == q[..n] + [p[0]] && p == [p[0]] + p[1..];
      WeightAppend(q[..n], [p[0]]);
      WeightAppend([p[0]], p[1..]);
    }
  }

  /** Damage confined to two adjacent payload bytes is such a burst. */
  lemma AdjacentBytesDetected(head: seq<Byte>, p: seq<Byte>, q: seq<Byte>, k: nat)
    requires |p| == |q| && k + 1 < |p|
    requires p != q && forall i | 0 <= i < |p| && i != k && i != k + 1 :: p[i] == q[i]
    ensures Of(head + q) != Of(head + p)
  {
    var pre, suf := p[..k], p[k + 2..];
    var a, b := p[k..k + 2], q[k..k + 2];
    assert p == pre + a + suf && q == pre + b + suf;
    DiffParts(pre, a, b, suf);
    if PayloadDiff(a, b) == Zero(8 * |a|) {
      MessageInjective(a, b);
    }
    BurstDetected(head, p, q, 8 * k, PayloadDiff(a, b));
  }

  lemma ByteBitsInjective(a: Byte, b: Byte)
    requires ByteBits(a) == ByteBits(b)
    ensures a == b
  {
    var p, q := Poly(a, 8), Poly(b, 8);
    forall i | 0 <= i < 8 ensures p[i] == q[i] {
      assert p[i] == ByteBits(a)[7 - i] && q[i] == ByteBits(b)[7 - i];
    }
    Pow16();
    PolyInjective(a, b, 8);
  }

  lemma {:induction false} MessageInjective(a: seq<Byte>, b: seq<Byte>)
    requires |a| == |b|
    requires Message(a) == Message(b) || Add(Message(a), Message(b)) == Zero(8 * |a|)
    ensures a == b
  {
    if Message(a) != Message(b) {
      forall i | 0 <= i < 8 * |a| ensures Message(a)[i] == Message(b)[i] {
        assert !Add(Message(a), Message(b))[i];
      }
    }
    if a != [] {
      assert ByteBits(a[0]) == Message(a)[..8] == Message(b)[..8] == ByteBits(b[0]);
      ByteBitsInjective(a[0], b[0]);
      assert Message(a[1..]) == Message(a)[8..] == Message(b)[8..] == Message(b[1..]);
      MessageInjective(a[1..], b[1..]);
    }
  }

  // ------------------------------------------------- the limit of detection

  /** The bit fed back by push k of four: none of them reaches another. */
  function Fed(c: Reg, w: Bits, k: nat): bool
    requires k < 4 <= |w|
  {
    c[15 - k] != w[k]
  }

  /** The register four pushes on. */
  function AfterFour(c: Reg, w: Bits): Reg
    requires |w| >= 4
  {
    seq(16, i requires 0 <= i < 16 =>
      (((i >= 4 && c[i - 4]) != (i < 4 && Fed(c, w, 3 - i)))
       != (5 <= i < 9 && Fed(c, w, 8 - i))) != (12 <= i < 16 && Fed(c, w, 15 - i)))
  }

  lemma FourPushes(c: Reg, w: Bits)
    requires |w| >= 4
    ensures PushBit(PushBit(PushBit(PushBit(c, w[0]), w[1]), w[2]), w[3]) == AfterFour(c, w)
  {
    hide PushBit;
    var c1 := PushBit(c, w[0]);
    var c2 := PushBit(c1, w[1]);
    var c3 := PushBit(c2, w[2]);
    var c4 := PushBit(c3, w[3]);
    forall i | 0 <= i < 16 ensures c4[i] == AfterFour(c, w)[i] {
      PushAt(c, w[0]);
      PushAt(c1, w[1]);
      PushAt(c2, w[2]);
      PushAt(c3, w[3]);
    }
  }

  lemma PushAt(c: Reg, bit: bool)
    ensures forall i | 0 <= i < 16 ::
              PushBit(c, bit)[i] == ((i > 0 && c[i - 1]) != ((c[15] != bit) && (i == 0 || i == 5 || i == 12)))
  {}

  lemma RunFour(c: Reg, w: Bits)
    requires |w| >= 4
    ensures Run(c, w) == Run(AfterFour(c, w), w[4..])
  {
    hide PushBit, AfterFour;
    FourPushes(c, w);
    assert w[1..][1..] == w[2..] && w[2..][1..] == w[3..] && w[3..][1..] == w[4..];
    RunOnce(c, w);
    RunOnce(PushBit(c, w[0]), w[1..]);
    RunOnce(PushBit(PushBit(c, w[0]), w[1]), w[2..]);
    RunOnce(PushBit(PushBit(PushBit(c, w[0]), w[1]), w[2]), w[3..]);
  }

  lemma RunOnce(c: Reg, w: Bits)
    requires w != []
    ensures Run(c, w) == Run(PushBit(c, w[0]), w[1..])
  {}

  /** The remainder a single damaged byte leaves. */
  lemma RunByte(d: Bits)
    requires |d| == 8
    ensures Run(Zero(16), d) == AfterFour(AfterFour(Zero(16), d), d[4..])
  {
    hide AfterFour;
    RunFour(Zero(16), d);
    RunFour(AfterFour(Zero(16), d), d[4..]);
    assert d[4..][4..] == [];
  }

  /** The bits of 0x89 and the remainder 0x00A1, first bit first. */
  const BITS_89: Bits := [true, false, false, false, true, false, false, true]
  const REST_A1: Bits := [true, false, false, false, false, true, false, true]

  /** That remainder, coefficient by coefficient. */
  lemma ByteRemainder(d: Bits)
    requires |d| == 8
    ensures var r := Run(Zero(16), d);
            && r[0] == (d[3] != d[7]) && r[1] == (d[2] != d[6]) && r[2] == (d[1] != d[5]) && r[3] == (d[0] != d[4])
            && r[4] == d[3] && r[5] == (d[2] != (d[3] != d[7]))
            && r[6] == (d[1] != (d[2] != d[6])) && r[7] == (d[0] != (d[1] != d[5]))
            && r[8] == (d[0] != d[4]) && r[9] == d[3] && r[10] == d[2] && r[11] == d[1]
            && r[12] == (d[0] != (d[3] != d[7])) && r[13] == (d[2] != d[6])
            && r[14] == (d[1] != d[5]) && r[15] == (d[0] != d[4])
  {
    hide Run, AfterFour;
    RunByte(d);
    var m := AfterFour(Zero(16), d);
    FirstFour(d);
    var v := d[4..];
    assert v[0] == d[4] && v[1] == d[5] && v[2] == d[6] && v[3] == d[7];
    AfterFourAt(m, v);
  }

  lemma FirstFour(d: Bits)
    requires |d| == 8
    ensures var m := AfterFour(Zero(16), d);
            && m[0] == d[3] && m[1] == d[2] && m[2] == d[1] && m[3] == d[0] && !m[4]
            && m[5] == d[3] && m[6] == d[2] && m[7] == d[1] && m[8] == d[0] && !m[9] && !m[10] && !m[11]
            && m[12] == d[3] && m[13] == d[2] && m[14] == d[1] && m[15] == d[0]
  {}

  lemma AfterFourAt(m: Reg, v: Bits)
    requires |v| == 4
    ensures var r, t0, t1, t2, t3 := AfterFour(m, v), m[15] != v[0], m[14] != v[1], m[13] != v[2], m[12] != v[3];
            && r[0] == t3 && r[1] == t2 && r[2] == t1 && r[3] == t0 && r[4] == m[0]
            && r[5] == (m[1] != t3) && r[6] == (m[2] != t2) && r[7] == (m[3] != t1) && r[8] == (m[4] != t0)
            && r[9] == m[5] && r[10] == m[6] && r[11] == m[7]
            && r[12] == (m[8] != t3) && r[13] == (m[9] != t2) && r[14] == (m[10] != t1) && r[15] == (m[11] != t0)
  {}

  /** Of the 256 remainders of one byte, exactly two have a zero high half: that of no
      damage, and that of 0x89, which is 0x00A1. */
  lemma HighHalfZeroIff(d: Bits)
    requires |d| == 8
    ensures Run(Zero(16), d)[8..] == Zero(8) <==> d == Zero(8) || d == BITS_89
    ensures d == Zero(8) ==> Run(Zero(16), d)[..8] == Zero(8)
    ensures d == BITS_89 ==> Run(Zero(16), d)[..8] == REST_A1
  {
    hide Run;
    ByteRemainder(d);
    var h := Run(Zero(16), d)[8..];
    if h == Zero(8) {
      assert !h[0] && !h[1] && !h[2] && !h[3] && !h[4] && !h[5] && !h[6] && !h[7];
    }
  }

  /** Damage confined to the last payload byte and the first checksum byte. */
  lemma LastByteDiff(pre: seq<Byte>, b: Byte, c: Byte)
    ensures PayloadDiff(pre + [b], pre + [c]) == Zero(8 * |pre|) + Add(ByteBits(b), ByteBits(c))
  {
    assert pre + [b] + [] == pre + [b] && pre + [c] + [] == pre + [c];
    DiffParts(pre, [b], [c], []);
    assert Message([b]) == ByteBits(b) + [] == ByteBits(b) && Message([c]) == ByteBits(c) + [] == ByteBits(c);
    assert Zero(0) == [];
  }

  /** Damage to a byte, as the bits of the exclusive or. */
  lemma ByteDiff(b: Byte, c: Byte)
    ensures Xor(b, c) < 256 && Add(Poly(b, 8), Poly(c, 8)) == Poly(Xor(b, c), 8)
    ensures Add(ByteBits(b), ByteBits(c)) == ByteBits(Xor(b, c))
  {
    hide Poly, Xor, Pow2;
    Pow16();
    XorBound(b, c, 8);
    XorPoly(b, c, 8);
  }

  lemma Poly89()
    ensures Poly(0x89, 8) == [true, false, false, true, false, false, false, true]
  {
    assert Poly(0x89, 8) == [true, false, false, true, false, false, false, true];
  }

  lemma PolyA1()
    ensures Poly(0xA1, 8) == REST_A1
  {
    assert Poly(0xA1, 8) == [true, false, false, false, false, true, false, true];
  }

  lemma Constants()
    ensures ByteBits(0) == Zero(8) && Poly(0, 8) == Zero(8)
    ensures ByteBits(0x89) == BITS_89 && Poly(0xA1, 8) == REST_A1
  {
    hide Poly;
    PolySmall(0, 8);
    Poly89();
    PolyA1();
  }

  /** Two 16-bit fields with one high byte differ only in their low bytes. */
  lemma FieldDiff(lo: Byte, lo': Byte, hi: Byte)
    ensures lo + (hi as nat) * 0x100 < 0x10000 && lo' + (hi as nat) * 0x100 < 0x10000
    ensures CrcDiff(lo + (hi as nat) * 0x100, lo' + (hi as nat) * 0x100) == Poly(Xor(lo, lo'), 8) + Zero(8)
  {
    hide Poly, Pow2, Xor;
    Pow16();
    PolyFields(lo, hi, 8, 8);
    PolyFields(lo', hi, 8, 8);
    ByteDiff(lo, lo');
    var x, y, h := Poly(lo, 8), Poly(lo', 8), Poly(hi, 8);
    assert Add(x + h, y + h) == Add(x, y) + Zero(8);
  }

  /** Damage xor `d` in the last payload byte and `e` in the checksum's low byte. */
  predicate Blind(d: nat, e: nat) {
    (d == 0 && e == 0) || (d == 0x89 && e == 0xA1)
  }

  lemma BlindBits(d: Byte, e: Byte)
    ensures Run(Zero(16), ByteBits(d)) == Poly(e, 8) + Zero(8) <==> Blind(d, e)
  {
    hide Poly, Run, Pow2;
    var r := Run(Zero(16), ByteBits(d));
    HighHalfZeroIff(ByteBits(d));
    Constants();
    assert r == r[..8] + r[8..];
    assert (Poly(e, 8) + Zero(8))[8..] == Zero(8) && (Poly(e, 8) + Zero(8))[..8] == Poly(e, 8);
    Pow16();
    if ByteBits(d) == Zero(8) { ByteBitsInjective(d, 0); }
    if ByteBits(d) == BITS_89 { ByteBitsInjective(d, 0x89); }
    if Poly(e, 8) == Zero(8) { PolyInjective(e, 0, 8); }
    if Poly(e, 8) == REST_A1 { PolyInjective(e, 0xA1, 8); }
  }

  /** The checksum travels low byte first, so a burst across the last payload byte and
      the first checksum byte is not contiguous in the divided polynomial. Such damage
      passes if and only if it is none at all, or 0x89 in the one and 0xA1 in the other,
      whatever the bytes were. */
  lemma BoundaryDamageIff(head: seq<Byte>, pre: seq<Byte>, b: Byte, c: Byte, lo: Byte, lo': Byte, hi: Byte)
    requires Of(head + (pre + [b])) == lo + (hi as nat) * 0x100
    ensures Of(head + (pre + [c])) == lo' + (hi as nat) * 0x100 <==> Blind(Xor(b, c), Xor(lo, lo'))
  {
    hide Of, Run, CrcDiff, PayloadDiff, Poly, Xor, Blind;
    var received := lo' + (hi as nat) * 0x100;
    FieldDiff(lo, lo', hi);
    ByteDiff(b, c);
    ByteDiff(lo, lo');
    UndetectedIff(head, pre + [b], pre + [c], received);
    LastByteDiff(pre, b, c);
    RunAppend(Zero(16), Zero(8 * |pre|), ByteBits(Xor(b, c)));
    RunZero(8 * |pre|);
    BlindBits(Xor(b, c), Xor(lo, lo'));
  }

  lemma XorTwice(b: Byte, d: Byte)
    ensures Xor(b, d) < 256 && Xor(b, Xor(b, d)) == d
  {
    hide Poly, Xor, Pow2;
    Pow16();
    ByteDiff(b, d);
    XorBound(b, Xor(b, d), 8);
    XorPoly(b, Xor(b, d), 8);
    assert Add(Poly(b, 8), Add(Poly(b, 8), Poly(d, 8))) == Poly(d, 8);
    PolyInjective(Xor(b, Xor(b, d)), d, 8);
  }

  /** So every payload has a damaged twin no receiver of it can tell apart. */
  lemma BoundaryBurstPasses(head: seq<Byte>, pre: seq<Byte>, b: Byte, lo: Byte, hi: Byte)
    requires Of(head + (pre + [b])) == lo + (hi as nat) * 0x100
    ensures Xor(b, 0x89) < 256 && Xor(b, 0x89) != b && Xor(lo, 0xA1) < 256 && Xor(lo, 0xA1) != lo
    ensures Of(head + (pre + [Xor(b, 0x89)])) == Xor(lo, 0xA1) + (hi as nat) * 0x100
  {
    hide Of, Xor;
    XorTwice(b, 0x89);
    XorTwice(lo, 0xA1);
    XorSelf(b);
    XorSelf(lo);
    BoundaryDamageIff(head, pre, b, Xor(b, 0x89), lo, Xor(lo, 0xA1), hi);
  }

  lemma {:induction false} XorSelf(n: nat)
    ensures Xor(n, n) == 0
  {
    if n != 0 {
      XorSelf(n / 2);
    }
  }

  // ---------------------------------------------------------------- known checksums

  predicate Bit(n: nat, i: nat)
    requires i < 4
  {
    if i == 0 then n % 2 == 1 else if i == 1 then n / 2 % 2 == 1 else if i == 2 then n / 4 % 2 == 1 else n / 8 % 2 == 1
  }

  function Nibble(n: nat): (r: Bits)
    ensures |r| == 4
  {
    seq(4, i requires 0 <= i < 4 => Bit(n, i))
  }

  /** A register by its four hexadecimal digits, the highest first. */
  datatype Hex = Hex(a: nat, b: nat, c: nat, d: nat)

  function RegOf(h: Hex): Reg {
    seq(16, i requires 0 <= i < 16 =>
      if i < 4 then Bit(h.d, i) else if i < 8 then Bit(h.c, i - 4) else if i < 12 then Bit(h.b, i - 8) else Bit(h.a, i - 12))
  }

  /** The bit fed back, number i of the nibble. */
  predicate Back(h: Hex, v: nat, i: nat)
    requires i < 4
  {
    Bit(h.a, i) != Bit(v, i)
  }

  predicate MovesBit(h: Hex, v: nat, o: Hex, i: nat)
    requires i < 4
  {
    && Bit(o.d, i) == Back(h, v, i)
    && Bit(o.c, i) == (Bit(h.d, i) != (i > 0 && Back(h, v, i - 1)))
    && Bit(o.b, i) == (Bit(h.c, i) != (i == 0 && Back(h, v, 3)))
    && Bit(o.a, i) == (Bit(h.b, i) != Back(h, v, i))
  }

  /** Four message bits move the register from `h` to `o`. */
  predicate Moves(h: Hex, v: nat, o: Hex) {
    MovesBit(h, v, o, 0) && MovesBit(h, v, o, 1) && MovesBit(h, v, o, 2) && MovesBit(h, v, o, 3)
  }

  /** A nibble as the message feeds it, most significant bit first. */
  function Incoming(v: nat): (r: Bits)
    ensures |r| == 4
  {
    seq(4, i requires 0 <= i < 4 => Bit(v, 3 - i))
  }

  lemma MovesIs(h: Hex, v: nat, o: Hex)
    requires Moves(h, v, o)
    ensures AfterFour(RegOf(h), Incoming(v)) == RegOf(o)
  {
    hide AfterFour, RegOf, MovesBit, Incoming;
    forall i | 0 <= i < 16 ensures AfterFour(RegOf(h), Incoming(v))[i] == RegOf(o)[i] {
      assert MovesBit(h, v, o, i % 4);
      MovesAt(h, v, o, i / 4, i % 4);
    }
  }

  /** Bit j of digit q. */
  lemma MovesAt(h: Hex, v: nat, o: Hex, q: nat, j: nat)
    requires q < 4 && j < 4 && MovesBit(h, v, o, j)
    ensures AfterFour(RegOf(h), Incoming(v))[4 * q + j] == RegOf(o)[4 * q + j]
  {
    hide Bit, Back, Fed, Incoming, RegOf;
    FedBack(h, v);
    DigitAt(h, q, j);
    DigitAt(o, q, j);
    if q > 0 {
      DigitAt(h, q - 1, j);
    }
  }

  function DigitOf(h: Hex, q: nat): nat
    requires q < 4
  {
    if q == 0 then h.d else if q == 1 then h.c else if q == 2 then h.b else h.a
  }

  lemma DigitAt(h: Hex, q: nat, j: nat)
    requires q < 4 && j < 4
    ensures RegOf(h)[4 * q + j] == Bit(DigitOf(h, q), j)
  {
    hide Bit;
  }

  lemma FedBack(h: Hex, v: nat)
    ensures forall k | 0 <= k < 4 :: Fed(RegOf(h), Incoming(v), k) == Back(h, v, 3 - k)
  {
    hide Bit;
  }

  lemma NibbleIs(n: nat)
    requires n < 16
    ensures Poly(n, 4) == Nibble(n)
  {
    assert n / 2 / 2 == n / 4 && n / 4 / 2 == n / 8;
    PolyStep(n, 4);
    PolyStep(n / 2, 3);
    PolyStep(n / 4, 2);
    PolyStep(n / 8, 1);
    assert Poly(n / 8 / 2, 0) == [];
    assert Nibble(n) == [n % 2 == 1, n / 2 % 2 == 1, n / 4 % 2 == 1, n / 8 % 2 == 1];
  }

  lemma PolyStep(n: nat, width: nat)
    requires width > 0
    ensures Poly(n, width) == [n % 2 == 1] + Poly(n / 2, width - 1)
  {}

  lemma Pow4()
    ensures Pow2(4) == 16
  {}

  lemma ByteIs(b: Byte, hi: nat, lo: nat)
    requires hi < 16 && lo < 16 && b == lo + hi * 16
    ensures ByteBits(b) == Incoming(hi) + Incoming(lo)
  {
    hide Poly, Bit, Pow2;
    Pow4();
    PolyFields(lo, hi, 4, 4);
    NibbleIs(hi);
    NibbleIs(lo);
  }

  lemma RegNibbles(h: Hex)
    ensures RegOf(h) == Nibble(h.d) + Nibble(h.c) + Nibble(h.b) + Nibble(h.a)
  {
    hide Bit;
  }

  lemma RegIs(h: Hex)
    requires h.a < 16 && h.b < 16 && h.c < 16 && h.d < 16
    ensures Poly(h.d + (h.c + (h.b + h.a * 16) * 16) * 16, 16) == RegOf(h)
  {
    hide Poly, Bit, Pow2;
    Pow4();
    NibbleIs(h.a);
    NibbleIs(h.b);
    NibbleIs(h.c);
    NibbleIs(h.d);
    PolyFields(h.b, h.a, 4, 4);
    PolyFields(h.c, h.b + h.a * 16, 4, 8);
    PolyFields(h.d, h.c + (h.b + h.a * 16) * 16, 4, 12);
    RegNibbles(h);
    var n := Nibble(h.c) + (Nibble(h.b) + Nibble(h.a));
    assert Nibble(h.d) + n == Nibble(h.d) + Nibble(h.c) + Nibble(h.b) + Nibble(h.a);
  }

  /** The register holds `h` after the bytes before `i`. */
  predicate HoldsAt(h: Hex, data: seq<Byte>, i: nat) {
    i <= |data| && Run(RegOf(h), Message(data[i..])) == Run(Init(), Message(data))
  }

  lemma HexByte(h: Hex, mid: Hex, o: Hex, data: seq<Byte>, i: nat, b: Byte, hi: nat, lo: nat)
    requires HoldsAt(h, data, i) && i < |data| && data[i] == b && hi < 16 && lo < 16 && b == lo + hi * 16
    requires Moves(h, hi, mid) && Moves(mid, lo, o)
    ensures HoldsAt(o, data, i + 1)
  {
    hide Run, AfterFour, RegOf, Incoming, Moves;
    MovesIs(h, hi, mid);
    MovesIs(mid, lo, o);
    ByteIs(b, hi, lo);
    MessageStep(RegOf(h), data, i);
    var w := ByteBits(b);
    RunFour(RegOf(h), w);
    RunFour(RegOf(mid), w[4..]);
    assert w[4..] == Incoming(lo) && w[4..][4..] == [];
    FirstFourOnly(RegOf(h), w, Incoming(hi));
    RunNil(RegOf(o));
  }

  lemma FirstFourOnly(c: Reg, w: Bits, v: Bits)
    requires |v| == 4 && |w| >= 4 && w[..4] == v
    ensures AfterFour(c, w) == AfterFour(c, v)
  {
    assert forall k | 0 <= k < 4 :: w[k] == w[..4][k];
  }

  lemma RunNil(c: Reg)
    ensures Run(c, []) == c
  {}

  lemma HexStart(data: seq<Byte>)
    ensures HoldsAt(Hex(15, 15, 15, 15), data, 0)
  {
    assert data[0..] == data;
    assert RegOf(Hex(15, 15, 15, 15)) == Init();
  }

  lemma HexDone(h: Hex, data: seq<Byte>, crc: nat)
    requires HoldsAt(h, data, |data|) && h.a < 16 && h.b < 16 && h.c < 16 && h.d < 16
    requires crc == h.d + (h.c + (h.b + h.a * 16) * 16) * 16
    ensures Of(data) == crc
  {
    hide Of, RegOf, Poly;
    assert Message(data[|data|..]) == [];
    RegIs(h);
    CrcUnique(crc, data);
  }

  predicate NineDigits(data: seq<Byte>) {
    data == [0x31, 0x32, 0x33, 0x34, 0x35, 0x36, 0x37, 0x38, 0x39]
  }

  lemma FirstDigits(data: seq<Byte>)
    requires NineDigits(data) && HoldsAt(Hex(15, 15, 15, 15), data, 0)
    ensures HoldsAt(Hex(5, 11, 12, 14), data, 3)
  {
    hide HoldsAt;
    HexByte(Hex(15, 15, 15, 15), Hex(3, 14, 7, 12), Hex(12, 7, 8, 2), data, 0, 0x31, 3, 1);
    HexByte(Hex(12, 7, 8, 2), Hex(8, 9, 12, 15), Hex(3, 13, 11, 10), data, 1, 0x32, 3, 2);
    HexByte(Hex(3, 13, 11, 10), Hex(13, 11, 10, 0), Hex(5, 11, 12, 14), data, 2, 0x33, 3, 3);
  }

  lemma MiddleDigits(data: seq<Byte>)
    requires NineDigits(data) && HoldsAt(Hex(5, 11, 12, 14), data, 3)
    ensures HoldsAt(Hex(2, 14, 15, 4), data, 6)
  {
    hide HoldsAt;
    HexByte(Hex(5, 11, 12, 14), Hex(13, 12, 2, 6), Hex(5, 3, 4, 9), data, 3, 0x34, 3, 4);
    HexByte(Hex(5, 3, 4, 9), Hex(5, 4, 5, 6), Hex(4, 5, 6, 0), data, 4, 0x35, 3, 5);
    HexByte(Hex(4, 5, 6, 0), Hex(2, 6, 14, 7), Hex(2, 14, 15, 4), data, 5, 0x36, 3, 6);
  }

  lemma LastDigits(data: seq<Byte>)
    requires NineDigits(data) && HoldsAt(Hex(2, 14, 15, 4), data, 6)
    ensures HoldsAt(Hex(2, 9, 11, 1), data, 9)
  {
    hide HoldsAt;
    HexByte(Hex(2, 14, 15, 4), Hex(15, 15, 6, 1), Hex(7, 7, 1, 8), data, 6, 0x37, 3, 7);
    HexByte(Hex(7, 7, 1, 8), Hex(3, 1, 0, 4), Hex(10, 1, 2, 11), data, 7, 0x38, 3, 8);
    HexByte(Hex(10, 1, 2, 11), Hex(8, 3, 9, 9), Hex(2, 9, 11, 1), data, 8, 0x39, 3, 9);
  }

  /** The published check value, of the nine digits "123456789". */
  lemma CheckValue(data: seq<Byte>)
    requires data == [0x31, 0x32, 0x33, 0x34, 0x35, 0x36, 0x37, 0x38, 0x39]
    ensures Of(data) == 0x29B1
  {
    hide HoldsAt, Of;
    HexStart(data);
    FirstDigits(data);
    MiddleDigits(data);
    LastDigits(data);
    HexDone(Hex(2, 9, 11, 1), data, 0x29B1);
  }

  /** What a frame of type 0x50 and without a payload is protected by. */
  lemma PingChecksum(data: seq<Byte>)
    requires data == [0x50, 0, 0]
    ensures Of(data) == 0x9252
  {
    hide HoldsAt, Of;
    HexStart(data);
    HexByte(Hex(15, 15, 15, 15), Hex(5, 14, 11, 10), Hex(11, 11, 0, 5), data, 0, 0x50, 5, 0);
    HexByte(Hex(11, 11, 0, 5), Hex(0, 1, 3, 11), Hex(1, 3, 11, 0), data, 1, 0x00, 0, 0);
    HexByte(Hex(1, 3, 11, 0), Hex(2, 11, 2, 1), Hex(9, 2, 5, 2), data, 2, 0x00, 0, 0);
    HexDone(Hex(9, 2, 5, 2), data, 0x9252);
  }
}
