/** PCG32: a linear congruential state of 64 bits and a 32-bit output permutation. */
module Pcg32 {
  import opened Gf2

  const MULT: nat := 6364136223846793005
  const MOD64: nat := 0x1_0000_0000_0000_0000
  const MOD32: nat := 0x1_0000_0000

  function Inc(sequence: nat): (inc: nat)
    ensures inc < MOD64 && inc % 2 == 1
  {
    (2 * sequence + 1) % MOD64
  }

  /** One advance of the state. */
  function Next(state: nat, inc: nat): (s: nat)
    ensures s < MOD64
  {
    (state * MULT + inc) % MOD64
  }

  // ------------------------------------------------------ the period of the state

  function Iterate(state: nat, inc: nat, n: nat): nat
    decreases n
  {
    if n == 0 then state else Next(Iterate(state, inc, n - 1), inc)
  }

  /** n advances without reduction send x to Scale(a, n) * x + Offset(a, c, n). */
  function Scale(a: nat, n: nat): (r: nat)
    decreases n
  {
    if n == 0 then 1 else Scale(a, n - 1) * a
  }

  function Offset(a: nat, c: nat, n: nat): nat
    decreases n
  {
    if n == 0 then 0 else Offset(a, c, n - 1) * a + c
  }

  /** How far n unreduced advances move x. */
  function Drift(a: nat, c: nat, x: nat, n: nat): int {
    (Scale(a, n) - 1) * x + Offset(a, c, n)
  }

  predicate Divides(m: int, n: int)
    requires m > 0
  {
    n % m == 0
  }

  lemma {:induction false} ScaleAdd(a: nat, m: nat, n: nat)
    ensures Scale(a, m + n) == Scale(a, m) * Scale(a, n)
    decreases n
  {
    if n > 0 {
      ScaleAdd(a, m, n - 1);
      assert Scale(a, m) * Scale(a, n - 1) * a == Scale(a, m) * (Scale(a, n - 1) * a);
    }
  }

  lemma Regroup(p: int, s: int, q: int, a: int)
    ensures (p * s + q) * a == p * (s * a) + q * a
  {
    assert (p * s + q) * a == (p * s) * a + q * a;
  }

  lemma {:induction false} OffsetAdd(a: nat, c: nat, m: nat, n: nat)
    ensures Offset(a, c, m + n) == Offset(a, c, m) * Scale(a, n) + Offset(a, c, n)
    decreases n
  {
    if n > 0 {
      OffsetAdd(a, c, m, n - 1);
      Regroup(Offset(a, c, m), Scale(a, n - 1), Offset(a, c, n - 1), a);
    }
  }

  lemma TimesOneMod4(s: nat, a: nat)
    requires s % 4 == 1 && a % 4 == 1
    ensures (s * a) % 4 == 1
  {
    var j, k := s / 4, a / 4;
    assert s * a == (4 * j + 1) * (4 * k + 1) == 4 * (4 * j * k + j + k) + 1;
  }

  lemma TimesOdd(q: int, a: int)
    requires a % 2 == 1
    ensures (q * a) % 2 == q % 2
  {
    var k := a / 2;
    assert q * a == q * (2 * k + 1) == 2 * (q * k) + q;
  }

  lemma ScaleResidue(a: nat, n: nat)
    requires a % 4 == 1 && n > 0 && Scale(a, n - 1) % 4 == 1
    ensures Scale(a, n) % 4 == 1
  {
    TimesOneMod4(Scale(a, n - 1), a);
  }

  lemma Start(a: nat, c: nat)
    ensures Scale(a, 0) == 1 && Offset(a, c, 0) == 0
  {}

  lemma OffsetSucc(a: nat, c: nat, n: nat)
    requires n > 0
    ensures Offset(a, c, n) == Offset(a, c, n - 1) * a + c
  {}

  lemma OffsetResidue(a: nat, c: nat, n: nat)
    requires a % 2 == 1 && c % 2 == 1 && n > 0
    ensures Offset(a, c, n) % 2 == (Offset(a, c, n - 1) + 1) % 2
  {
    hide Offset;
    OffsetSucc(a, c, n);
    SumParity(Offset(a, c, n - 1), a, c);
  }

  lemma SumParity(q: int, a: int, c: int)
    requires a % 2 == 1 && c % 2 == 1
    ensures (q * a + c) % 2 == (q + 1) % 2
  {
    TimesOdd(q, a);
    AddOdd(q * a, q, c);
  }

  lemma AddOdd(x: int, q: int, c: int)
    requires x % 2 == q % 2 && c % 2 == 1
    ensures (x + c) % 2 == (q + 1) % 2
  {}

  /** The multiplier's powers are 1 modulo 4; the offsets have the parity of n. */
  lemma {:induction false} Residues(a: nat, c: nat, n: nat)
    requires a % 4 == 1 && c % 2 == 1
    ensures Scale(a, n) % 4 == 1
    ensures Offset(a, c, n) % 2 == n % 2
    decreases n
  {
    hide Scale, Offset;
    if n == 0 {
      Start(a, c);
    } else {
      Residues(a, c, n - 1);
      ScaleResidue(a, n);
      OffsetResidue(a, c, n);
      AddOdd(Offset(a, c, n - 1), n - 1, 1);
    }
  }

  lemma Square(s: int, q: int, x: int)
    ensures (s * s - 1) * x + (q * s + q) == (s + 1) * ((s - 1) * x + q)
  {
    assert (s * s - 1) * x == (s + 1) * ((s - 1) * x);
  }

  /** Twice as many advances drift by 2 times an odd number as far. */
  lemma DriftDouble(a: nat, c: nat, x: nat, n: nat)
    ensures Drift(a, c, x, 2 * n) == (Scale(a, n) + 1) * Drift(a, c, x, n)
  {
    hide Scale, Offset;
    ScaleAdd(a, n, n);
    OffsetAdd(a, c, n, n);
    Square(Scale(a, n), Offset(a, c, n), x);
  }

  lemma DoubleProduct(k: int, x: int)
    ensures (4 * k) * x == 2 * (2 * (k * x))
  {}

  lemma DriftOdd(a: nat, c: nat, x: nat, n: nat)
    requires a % 4 == 1 && c % 2 == 1 && n % 2 == 1
    ensures Drift(a, c, x, n) % 2 == 1
  {
    hide Scale, Offset;
    Residues(a, c, n);
    OddSum(Scale(a, n), Offset(a, c, n), x);
  }

  lemma OddSum(s: nat, o: nat, x: nat)
    requires s % 4 == 1 && o % 2 == 1
    ensures ((s - 1) * x + o) % 2 == 1
  {
    TwiceOdd((s - 1) * x, 2 * ((s / 4) * x), o) by {
      DoubleProduct(s / 4, x);
      assert s - 1 == 4 * (s / 4);
    }
  }

  lemma TwiceOdd(z: int, y: int, o: nat)
    requires z == 2 * y && o % 2 == 1
    ensures (z + o) % 2 == 1
  {}

  lemma DividesHalf(m: int, n: int)
    requires m > 0
    ensures Divides(2 * m, 2 * n) <==> Divides(m, n)
  {
    var q, r := n / m, n % m;
    assert 2 * n == (2 * m) * q + 2 * r;
    DivModUnique(2 * n, 2 * m, q, 2 * r);
  }

  /** An odd factor does not affect divisibility by a power of two. */
  lemma {:induction false} OddFactorPow(k: nat, u: int, d: int)
    requires u % 2 == 1
    ensures Divides(Pow2(k), u * d) <==> Divides(Pow2(k), d)
    decreases k
  {
    hide Divides, Pow2;
    PowerStep(k);
    if k == 0 {
      OneDivides(u * d);
      OneDivides(d);
    } else if d % 2 == 0 {
      var h := d / 2;
      EvenProduct(u, d, h);
      DividesHalf(Pow2(k - 1), u * h);
      DividesHalf(Pow2(k - 1), h);
      OddFactorPow(k - 1, u, h);
    } else {
      OddProduct(u, d);
      OddNotDivided(k, u * d);
      OddNotDivided(k, d);
    }
  }

  lemma PowerStep(k: nat)
    ensures Pow2(0) == 1 && (k > 0 ==> Pow2(k) == 2 * Pow2(k - 1))
  {}

  lemma OneDivides(n: int)
    ensures Divides(1, n)
  {}

  lemma EvenProduct(u: int, d: int, h: int)
    requires d == 2 * h
    ensures u * d == 2 * (u * h)
  {}

  lemma OddProduct(u: int, d: int)
    requires u % 2 == 1 && d % 2 == 1
    ensures (u * d) % 2 == 1
  {
    var v, h := u / 2, d / 2;
    assert u == 2 * v + 1 && d == 2 * h + 1;
    assert u * d == 2 * (2 * v * h + v + h) + 1;
  }

  lemma EvenMultiple(m: int, q: int, n: int)
    requires n == (2 * m) * q
    ensures n % 2 == 0
  {
    assert n == 2 * (m * q);
  }

  lemma OddNotDivided(k: nat, n: int)
    requires k > 0 && n % 2 == 1
    ensures !Divides(Pow2(k), n)
  {
    if Divides(Pow2(k), n) {
      var q := n / Pow2(k);
      EvenMultiple(Pow2(k - 1), q, n);
    }
  }

  lemma DriftEven(a: nat, c: nat, x: nat, m: nat, k: nat)
    requires a % 4 == 1 && c % 2 == 1
    requires Divides(Pow2(k), Drift(a, c, x, m)) <==> Divides(Pow2(k), m)
    ensures Divides(Pow2(k + 1), Drift(a, c, x, 2 * m)) <==> Divides(Pow2(k + 1), 2 * m)
  {
    hide Scale, Offset, Drift;
    var d, u := Drift(a, c, x, m), (Scale(a, m) + 1) / 2;
    Residues(a, c, m);
    DriftDouble(a, c, x, m);
    assert Scale(a, m) + 1 == 2 * u && u % 2 == 1;
    Twice(u, d);
    OddFactorPow(k, u, d);
    DividesHalf(Pow2(k), u * d);
    DividesHalf(Pow2(k), m);
  }

  lemma Twice(u: int, d: int)
    ensures (2 * u) * d == 2 * (u * d)
  {}

  /** The drift carries exactly the powers of two that n carries. */
  lemma {:induction false} DriftValuation(a: nat, c: nat, x: nat, n: nat, k: nat)
    requires a % 4 == 1 && c % 2 == 1
    ensures Divides(Pow2(k), Drift(a, c, x, n)) <==> Divides(Pow2(k), n)
    decreases k
  {
    hide Scale, Offset, Drift;
    if k == 0 {
    } else if n % 2 == 1 {
      DriftOdd(a, c, x, n);
      OddNotDivided(k, Drift(a, c, x, n));
      OddNotDivided(k, n);
    } else {
      DriftValuation(a, c, x, n / 2, k - 1);
      DriftEven(a, c, x, n / 2, k - 1);
    }
  }

  lemma ModStep(y: nat, inc: nat, z: nat)
    requires z == y * MULT + inc
    ensures Next(y % MOD64, inc) == z % MOD64
  {
    var q, r := y / MOD64, y % MOD64;
    var t := r * MULT + inc;
    DivModUnique(y * MULT + inc, MOD64, q * MULT + t / MOD64, t % MOD64);
  }

  /** What n unreduced advances make of x. */
  function Closed(x: nat, inc: nat, n: nat): nat {
    Scale(MULT, n) * x + Offset(MULT, inc, n)
  }

  lemma ClosedStep(x: nat, inc: nat, n: nat)
    ensures Closed(x, inc, n + 1) == Closed(x, inc, n) * MULT + inc
  {
    Regroup(x, Scale(MULT, n), Offset(MULT, inc, n), MULT);
  }

  lemma {:induction false} IterateClosed(x: nat, inc: nat, n: nat)
    requires x < MOD64
    ensures Iterate(x, inc, n) == Closed(x, inc, n) % MOD64
    decreases n
  {
    hide Closed, Next;
    if n > 0 {
      IterateClosed(x, inc, n - 1);
      ClosedStep(x, inc, n - 1);
      ModStep(Closed(x, inc, n - 1), inc, Closed(x, inc, n));
    } else {
      ClosedStart(x, inc);
    }
  }

  lemma ClosedStart(x: nat, inc: nat)
    requires x < MOD64
    ensures Closed(x, inc, 0) == x == x % MOD64
  {}

  lemma ClosedIsDrift(x: nat, inc: nat, n: nat)
    ensures Closed(x, inc, n) == x + Drift(MULT, inc, x, n)
  {}

  /** The state returns to where it was after n advances exactly when n is a
      multiple of 2^64, from every state and on every sequence. */
  lemma FullPeriod(state: nat, inc: nat, n: nat)
    requires state < MOD64 && inc % 2 == 1
    ensures Iterate(state, inc, n) == state <==> n % MOD64 == 0
  {
    hide Closed, Drift;
    IterateClosed(state, inc, n);
    ClosedIsDrift(state, inc, n);
    Powers();
    DriftValuation(MULT, inc, state, n, 64);
    ReturnsIff(state, Drift(MULT, inc, state, n));
  }

  lemma ReturnsIff(x: nat, d: int)
    requires x < MOD64
    ensures (x + d) % MOD64 == x <==> d % MOD64 == 0
  {}

  lemma {:induction false} IterateAdd(x: nat, inc: nat, m: nat, n: nat)
    requires x < MOD64
    ensures Iterate(x, inc, m) < MOD64
    ensures Iterate(x, inc, m + n) == Iterate(Iterate(x, inc, m), inc, n)
    decreases n
  {
    if n > 0 {
      IterateAdd(x, inc, m, n - 1);
    }
  }

  /** So 2^64 consecutive states are distinct: every state is visited once a period. */
  lemma StatesDistinct(state: nat, inc: nat, i: nat, j: nat)
    requires state < MOD64 && inc % 2 == 1 && i < j < i + MOD64
    ensures Iterate(state, inc, i) != Iterate(state, inc, j)
  {
    IterateAdd(state, inc, i, j - i);
    FullPeriod(Iterate(state, inc, i), inc, j - i);
  }

  // -------------------------------------------------------------------- output

  /** xsh-rr: the top five bits of the state select a rotation of a 32-bit xorshift. */
  function Xorshifted(state: nat): (x: nat)
    ensures x < MOD32
  {
    (Xor(state / 0x4_0000, state) / 0x800_0000) % MOD32
  }

  function Rot(state: nat): (r: nat)
    ensures r < 32
  {
    (state / 0x800_0000_0000_0000) % 32
  }

  function Output(state: nat): (r: nat)
    ensures r < MOD32
  {
    var x, r := Xorshifted(state), Rot(state);
    Or(ShiftRight(x, r), x * Pow2((32 - r) % 32)) % MOD32
  }

  /** The output is the xorshift rotated right, for every amount including zero. */
  lemma OutputRotates(state: nat)
    ensures var x, r := Poly(Xorshifted(state), 32), Rot(state);
            Poly(Output(state), 32) == x[r..] + x[..r]
  {
    hide Poly, Or, Xor, Pow2, ShiftRight;
    Powers();
    Rotates(Xorshifted(state), Rot(state), 32);
  }

  /** Dividing by a power of two drops low coefficients. */
  lemma DivideBits(q: nat, low: nat, k: nat, width: nat, n: nat)
    requires low < Pow2(k) && n == low + q * Pow2(k)
    ensures Poly(q, width) == Poly(n, k + width)[k..]
  {
    hide Poly, Pow2;
    PolyFields(low, q, k, width);
  }

  /** The xorshift, bit by bit: bits 27 up against bits 45 up of the state. */
  lemma XorshiftedBits(state: nat, k: nat)
    requires k < 32
    ensures Poly(Xorshifted(state), 32)[k] == (Poly(state, 77)[45 + k] != Poly(state, 77)[27 + k])
  {
    hide Poly, Xor, Pow2;
    Powers();
    Pow18And27();
    var high := state / 0x4_0000;
    var x := Xor(high, state);
    PolyMod(x / 0x800_0000, 32);
    DivideBits(x / 0x800_0000, x % 0x800_0000, 27, 32, x);
    XorPoly(high, state, 59);
    DivideBits(state / 0x4_0000, state % 0x4_0000, 18, 59, state);
    PolyPrefix(state, 59, 18);
    assert Poly(x, 59)[27..][k] == Poly(x, 59)[27 + k];
    assert Poly(state, 77)[18..][27 + k] == Poly(state, 77)[45 + k];
    assert Poly(state, 77)[..59][27 + k] == Poly(state, 77)[27 + k];
  }

  lemma Pow18And27()
    ensures Pow2(18) == 0x4_0000 && Pow2(27) == 0x800_0000
  {
    assert Pow2(9) == 0x200;
  }

  /** The whole output, bit by bit, on the state: its top five bits say how far to rotate. */
  lemma OutputBits(state: nat, i: nat)
    requires state < MOD64 && i < 32
    ensures var k := (i + state / 0x800_0000_0000_0000) % 32;
            Poly(Output(state), 32)[i] == (Poly(state, 77)[45 + k] != Poly(state, 77)[27 + k])
  {
    hide Poly, Output, Xorshifted;
    OutputRotates(state);
    var r := Rot(state);
    assert r == state / 0x800_0000_0000_0000;
    var k := (i + r) % 32;
    var x := Poly(Xorshifted(state), 32);
    assert (x[r..] + x[..r])[i] == x[k];
    XorshiftedBits(state, k);
  }

  /** A draw is a multiple of 2^-24 in [0, 1). */
  function Uniform(state: nat): (u: real)
    ensures 0.0 <= u < 1.0
    ensures u * 16777216.0 == (Output(state) / 0x100) as real
  {
    (Output(state) / 0x100) as real / 16777216.0
  }

  // ---------------------------------------------------------------- the object

  class Generator {
    var state: nat
    var inc: nat

    predicate Valid()
      reads this
    {
      state < MOD64 && inc < MOD64 && inc % 2 == 1
    }

    constructor (seed: nat, sequence: nat)
      ensures Valid()
      ensures inc == Inc(sequence)
      ensures state == Next((Next(0, inc) + seed % MOD64) % MOD64, inc)
    {
      hide Output, Next;
      state := 0;
      inc := (2 * sequence + 1) % MOD64;
      new;
      var _ := NextU32();
      state := (state + seed % MOD64) % MOD64;
      var _ := NextU32();
    }

    method NextU32() returns (r: nat)
      requires Valid()
      modifies this`state
      ensures Valid()
      ensures state == Next(old(state), inc) && r == Output(old(state))
    {
      var before := state;
      state := (before * MULT + inc) % MOD64;
      var xorshifted := (Xor(before / 0x4_0000, before) / 0x800_0000) % MOD32;
      var rot := (before / 0x800_0000_0000_0000) % 32;
      r := Or(ShiftRight(xorshifted, rot), xorshifted * Pow2((32 - rot) % 32)) % MOD32;
    }

    method NextUniform() returns (u: real)
      requires Valid()
      modifies this`state
      ensures Valid()
      ensures state == Next(old(state), inc) && u == Uniform(old(state))
    {
      var r := NextU32();
      u := (r / 0x100) as real / 16777216.0;
    }
  }

  /** Drawing n numbers advances the state n times. */
  method Draw(g: Generator, n: nat) returns (us: seq<real>)
    requires g.Valid()
    modifies g`state
    ensures g.Valid()
    ensures g.state == Iterate(old(g.state), g.inc, n)
    ensures |us| == n && forall i | 0 <= i < n :: us[i] == Uniform(Iterate(old(g.state), g.inc, i))
  {
    hide Uniform, Output;
    us := [];
    for i := 0 to n
      invariant g.Valid() && g.state == Iterate(old(g.state), g.inc, i)
      invariant |us| == i && forall k | 0 <= k < i :: us[k] == Uniform(Iterate(old(g.state), g.inc, k))
    {
      var u := g.NextUniform();
      us := us + [u];
    }
  }
}
