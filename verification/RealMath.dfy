/** Order facts about products and quotients of reals, one at a time. */
module RealMath {

  function Abs(x: real): real {
    if x < 0.0 then -x else x
  }

  /** Zero at zero. */
  function Sign(v: real): real {
    if v == 0.0 then 0.0 else if v > 0.0 then 1.0 else -1.0
  }

  function Max(x: real, y: real): real {
    if x >= y then x else y
  }

  function Min(x: real, y: real): real {
    if x <= y then x else y
  }

  lemma AbsNonneg(x: real)
    ensures Abs(x) >= 0.0
  {}

  lemma MulNonneg(a: real, b: real)
    requires a >= 0.0 && b >= 0.0
    ensures a * b >= 0.0
  {}

  lemma MulPos(a: real, b: real)
    requires a > 0.0 && b > 0.0
    ensures a * b > 0.0
  {}

  /** Multiplying an inequality by a nonnegative factor. */
  lemma MulMono(a: real, x: real, y: real)
    requires a >= 0.0 && x <= y
    ensures a * x <= a * y
  {
    assert a * (y - x) >= 0.0;
  }

  lemma DivMul(x: real, y: real)
    requires y != 0.0
    ensures (x / y) * y == x
  {}

  lemma DivNonneg(x: real, y: real)
    requires x >= 0.0 && y > 0.0
    ensures x / y >= 0.0
  {}

  lemma DivPos(x: real, y: real)
    requires x > 0.0 && y > 0.0
    ensures x / y > 0.0
  {}

  /** A quotient is at least q when q times the divisor is at most the dividend. */
  lemma DivGe(x: real, y: real, q: real)
    requires y > 0.0 && q * y <= x
    ensures q <= x / y
  {
    var d := x / y;
    assert d * y == x;
    if d < q {
      MulPos(q - d, y);
      assert false;
    }
  }

  lemma DivLe(x: real, y: real, q: real)
    requires y > 0.0 && x <= q * y
    ensures x / y <= q
  {
    var d := x / y;
    assert d * y == x;
    if d > q {
      MulPos(d - q, y);
      assert false;
    }
  }

  /** A nonzero common factor cancels. */
  lemma Cancel(a: real, x: real, y: real)
    requires a != 0.0 && a * x == a * y
    ensures x == y
  {
    assert a * (x - y) == 0.0;
  }

  lemma AbsMul(a: real, b: real)
    ensures Abs(a * b) == Abs(a) * Abs(b)
  {
    if a >= 0.0 && b >= 0.0 {
      MulNonneg(a, b);
    } else if a >= 0.0 {
      MulNonneg(a, -b);
    } else if b >= 0.0 {
      MulNonneg(-a, b);
    } else {
      MulNonneg(-a, -b);
    }
  }
}
