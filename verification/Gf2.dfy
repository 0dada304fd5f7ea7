/** Polynomials over GF(2) as bit sequences, and binary numerals.

    Coefficient `p[i]` belongs to x^i, so `Poly(n, w)` is the binary numeral of
    `n`, least significant bit first.
  */
module Gf2 {

  type Bits = seq<bool>

  function Add(p: Bits, q: Bits): (r: Bits)
    requires |p| == |q|
  {
    seq(|p|, i requires 0 <= i < |p| => p[i] != q[i])
  }

  function Zero(n: nat): Bits {
    seq(n, _ => false)
  }

  /** The number of nonzero coefficients. */
  function Weight(p: Bits): nat {
    if p == [] then 0 else (if p[0] then 1 else 0) + Weight(p[1..])
  }

  lemma {:induction false} WeightAppend(p: Bits, q: Bits)
    ensures Weight(p + q) == Weight(p) + Weight(q)
  {
    if p == [] {
      assert p + q == q;
    } else {
      assert (p + q)[1..] == p[1..] + q;
      WeightAppend(p[1..], q);
    }
  }

  lemma {:induction false} WeightAdd(p: Bits, q: Bits)
    requires |p| == |q|
    ensures Weight(Add(p, q)) % 2 == (Weight(p) + Weight(q)) % 2
  {
    if p != [] {
      assert Add(p, q)[1..] == Add(p[1..], q[1..]);
      WeightAdd(p[1..], q[1..]);
    }
  }

  /** Two sequences that share their ends differ only in the middle. */
  lemma AddFrame(x: Bits, y: Bits, z: Bits, w: Bits)
    requires |y| == |z|
    ensures Add(x + y + w, x + z + w) == Zero(|x|) + Add(y, z) + Zero(|w|)
  {
    var l, r := Add(x + y + w, x + z + w), Zero(|x|) + Add(y, z) + Zero(|w|);
    forall i | 0 <= i < |l| ensures l[i] == r[i] {
      if i < |x| {
      } else if i < |x| + |y| {
        assert (x + y + w)[i] == y[i - |x|] && (x + z + w)[i] == z[i - |x|];
      }
    }
  }

  lemma {:induction false} WeightZero(n: nat)
    ensures Weight(Zero(n)) == 0
  {
    if n > 0 {
      assert Zero(n)[1..] == Zero(n - 1);
      WeightZero(n - 1);
    }
  }

  // ------------------------------------------------------------------ numerals

  function Poly(n: nat, width: nat): (p: Bits)
    ensures |p| == width
    decreases width, n
  {
    if width == 0 then [] else [n % 2 == 1] + Poly(n / 2, width - 1)
  }

  function Value(p: Bits): nat {
    if p == [] then 0 else (if p[0] then 1 else 0) + 2 * Value(p[1..])
  }

  function Pow2(n: nat): (r: nat)
    ensures r >= 1
    decreases n
  {
    if n == 0 then 1 else 2 * Pow2(n - 1)
  }

  lemma {:induction false} ValueBound(p: Bits)
    ensures Value(p) < Pow2(|p|)
  {
    if p != [] {
      ValueBound(p[1..]);
    }
  }

  lemma {:induction false} PolyValue(p: Bits)
    ensures Poly(Value(p), |p|) == p
  {
    if p != [] {
      PolyValue(p[1..]);
      assert Value(p) / 2 == Value(p[1..]);
    }
  }

  lemma {:induction false} ValuePoly(n: nat, width: nat)
    requires n < Pow2(width)
    ensures Value(Poly(n, width)) == n
    decreases width
  {
    if width > 0 {
      ValuePoly(n / 2, width - 1);
      assert Poly(n, width)[1..] == Poly(n / 2, width - 1);
    }
  }

  /** Numerals of a fixed width are unique. */
  lemma PolyInjective(a: nat, b: nat, width: nat)
    requires a < Pow2(width) && b < Pow2(width)
    requires Poly(a, width) == Poly(b, width)
    ensures a == b
  {
    ValuePoly(a, width);
    ValuePoly(b, width);
  }

  // -------------------------------------------------- exclusive or on numbers

  /** The `^` of two nonnegative integers. */
  function Xor(a: nat, b: nat): nat {
    if a == 0 && b == 0 then 0
    else (if a % 2 != b % 2 then 1 else 0) + 2 * Xor(a / 2, b / 2)
  }

  lemma {:induction false} XorPoly(a: nat, b: nat, width: nat)
    ensures Poly(Xor(a, b), width) == Add(Poly(a, width), Poly(b, width))
    decreases width
  {
    if width > 0 {
      var x := Xor(a, b);
      assert x / 2 == Xor(a / 2, b / 2) && (x % 2 == 1 <==> a % 2 != b % 2);
      XorPoly(a / 2, b / 2, width - 1);
      assert Add(Poly(a, width), Poly(b, width))[1..]
          == Add(Poly(a / 2, width - 1), Poly(b / 2, width - 1));
    }
  }

  lemma {:induction false} XorBound(a: nat, b: nat, width: nat)
    requires a < Pow2(width) && b < Pow2(width)
    ensures Xor(a, b) < Pow2(width)
    decreases width
  {
    if width > 0 {
      XorBound(a / 2, b / 2, width - 1);
    }
  }

  /** Reducing modulo 2^width only drops high coefficients. */
  lemma {:induction false} PolyMod(n: nat, width: nat)
    ensures Poly(n % Pow2(width), width) == Poly(n, width)
    decreases width
  {
    if width > 0 {
      var m := Pow2(width - 1);
      ModHalf(n, m);
      PolyMod(n / 2, width - 1);
    }
  }

  lemma ModHalf(n: nat, m: nat)
    requires m > 0
    ensures (n % (2 * m)) / 2 == (n / 2) % m
    ensures (n % (2 * m)) % 2 == n % 2
  {
    var q, r := n / (2 * m), n % (2 * m);
    assert n == 2 * (m * q) + r;
    assert n / 2 == m * q + r / 2;
    DivModUnique(n / 2, m, q, r / 2);
  }

  lemma SmallMultiple(m: int, d: int)
    requires m > 0 && -m < m * d < m
    ensures d == 0
  {}

  lemma DivModUnique(n: int, m: int, q: int, r: int)
    requires 0 <= r < m && n == m * q + r
    ensures n / m == q && n % m == r
  {
    var d := n / m - q;
    assert m * d == m * (n / m) - m * q;
    SmallMultiple(m, d);
  }

  /** Doubling shifts every coefficient up by one. */
  lemma PolyDouble(n: nat, width: nat)
    requires width > 0
    ensures Poly(2 * n, width) == [false] + Poly(n, width - 1)
  {}

  lemma {:induction false} PolyPrefix(n: nat, width: nat, more: nat)
    ensures Poly(n, width + more)[..width] == Poly(n, width)
    decreases width
  {
    if width > 0 {
      PolyPrefix(n / 2, width - 1, more);
    }
  }

  /** Multiplying by 2^k prepends k zero coefficients. */
  lemma {:induction false} PolyShift(n: nat, k: nat, width: nat)
    ensures Poly(n * Pow2(k), k + width) == Zero(k) + Poly(n, width)
    decreases k
  {
    if k == 0 {
      assert Zero(0) + Poly(n, width) == Poly(n, width);
    } else {
      assert n * Pow2(k) == 2 * (n * Pow2(k - 1));
      PolyDouble(n * Pow2(k - 1), k + width);
      PolyShift(n, k - 1, width);
      assert Zero(k) == [false] + Zero(k - 1);
    }
  }

  /** The top coefficient of a 16-bit numeral decides whether it is at least 2^15. */
  lemma {:induction false} TopBit(n: nat, width: nat)
    requires n < Pow2(width + 1)
    ensures Poly(n, width + 1)[width] <==> n >= Pow2(width)
    decreases width
  {
    if width > 0 {
      assert Poly(n, width + 1) == [n % 2 == 1] + Poly(n / 2, width);
      assert Pow2(width + 1) == 2 * Pow2(width) && Pow2(width) == 2 * Pow2(width - 1);
      TopBit(n / 2, width - 1);
    }
  }

  lemma {:induction false} PolySmall(n: nat, width: nat)
    requires n <= 1 && width > 0
    ensures Poly(n, width) == [n == 1] + Zero(width - 1)
    decreases width
  {
    if width > 1 {
      PolySmall(0, width - 1);
      assert Zero(width - 1) == [false] + Zero(width - 2);
    }
  }

  /** Numerals of adjacent bit fields are concatenated. */
  lemma {:induction false} PolyFields(low: nat, high: nat, k: nat, width: nat)
    requires low < Pow2(k)
    ensures Poly(low + high * Pow2(k), k + width) == Poly(low, k) + Poly(high, width)
    decreases k
  {
    if k == 0 {
      assert Poly(low, 0) + Poly(high, width) == Poly(high, width);
    } else {
      var m := high * Pow2(k - 1);
      assert high * Pow2(k) == 2 * m;
      PolyFields(low / 2, high, k - 1, width);
      assert (low + 2 * m) / 2 == low / 2 + m;
    }
  }

  lemma PowByte(k: nat)
    ensures Pow2(8 * (k + 1)) == 0x100 * Pow2(8 * k)
  {
    var m := 8 * k;
    assert Pow2(m + 8) == 2 * Pow2(m + 7);
    assert Pow2(m + 7) == 4 * Pow2(m + 5);
    assert Pow2(m + 5) == 4 * Pow2(m + 3);
    assert Pow2(m + 3) == 2 * Pow2(m + 2) && Pow2(m + 2) == 4 * Pow2(m);
  }

  lemma Powers()
    ensures Pow2(8) == 0x100 && Pow2(16) == 0x1_0000
    ensures Pow2(32) == 0x1_0000_0000 && Pow2(64) == 0x1_0000_0000_0000_0000
  {
    hide Pow2;
    assert Pow2(0) == 1 by { PowZero(); }
    PowByte(0);
    PowByte(1);
    PowByte(2);
    PowByte(3);
    PowByte(4);
    PowByte(5);
    PowByte(6);
    PowByte(7);
  }

  lemma PowZero()
    ensures Pow2(0) == 1
  {}

  /** The `|` of two nonnegative integers. */
  function Or(a: nat, b: nat): nat {
    if a == 0 && b == 0 then 0
    else (if a % 2 == 1 || b % 2 == 1 then 1 else 0) + 2 * Or(a / 2, b / 2)
  }

  lemma {:induction false} OrPoly(a: nat, b: nat, width: nat, i: nat)
    requires i < width
    ensures Poly(Or(a, b), width)[i] == (Poly(a, width)[i] || Poly(b, width)[i])
    decreases width
  {
    var x := Or(a, b);
    assert x / 2 == Or(a / 2, b / 2) && (x % 2 == 1 <==> a % 2 == 1 || b % 2 == 1);
    if i > 0 {
      OrPoly(a / 2, b / 2, width - 1, i - 1);
    }
  }

  /** The `>>` of a nonnegative integer. */
  function ShiftRight(n: nat, k: nat): nat
    decreases k, n
  {
    if k == 0 then n else ShiftRight(n / 2, k - 1)
  }

  /** A right shift drops low coefficients. */
  lemma {:induction false} PolyShiftRight(n: nat, k: nat, width: nat)
    ensures Poly(ShiftRight(n, k), width) == Poly(n, k + width)[k..]
    decreases k
  {
    if k > 0 {
      PolyShiftRight(n / 2, k - 1, width);
      assert Poly(n, k + width)[k..] == Poly(n / 2, k - 1 + width)[k - 1..];
    }
  }

  /** Coefficients above a number's size are zero. */
  lemma {:induction false} PolyHigh(n: nat, k: nat, width: nat)
    requires n < Pow2(k)
    ensures Poly(n, k + width)[k..] == Zero(width)
    decreases k
  {
    if k == 0 {
      ZeroPoly(width);
    } else {
      PolyHigh(n / 2, k - 1, width);
      assert Poly(n, k + width)[k..] == Poly(n / 2, k - 1 + width)[k - 1..];
    }
  }

  lemma {:induction false} ZeroPoly(width: nat)
    ensures Poly(0, width) == Zero(width)
    decreases width
  {
    if width > 0 {
      ZeroPoly(width - 1);
      assert Zero(width) == [false] + Zero(width - 1);
    }
  }

  /** Shifting right by r and left by width - r, masking, and combining rotates. */
  lemma Rotates(x: nat, r: nat, width: nat)
    requires x < Pow2(width) && r < width
    ensures var s := if r == 0 then 0 else width - r;
            Poly(Or(ShiftRight(x, r), x * Pow2(s)) % Pow2(width), width) == Poly(x, width)[r..] + Poly(x, width)[..r]
  {
    hide Poly, Or, Pow2, ShiftRight;
    var s := if r == 0 then 0 else width - r;
    var a, b := ShiftRight(x, r), x * Pow2(s);
    var p := Poly(x, width);
    PolyMod(Or(a, b), width);
    PolyShiftRight(x, r, width);
    PolyHigh(x, width, r);
    PolyPrefix(x, width, r);
    PolyShift(x, s, width - s);
    PolyPrefix(x, width - s, s);
    forall i | 0 <= i < width ensures Poly(Or(a, b), width)[i] == (p[r..] + p[..r])[i] {
      OrPoly(a, b, width, i);
      var wide := Poly(x, r + width);
      assert Poly(a, width)[i] == wide[r + i];
      if r + i < width {
        assert wide[r + i] == wide[..width][r + i];
      } else {
        assert wide[r + i] == wide[width..][r + i - width];
      }
    }
  }
}
