/** Fixed-point conventions shared by the wire, the logs and the controllers,
    over the reals. Signed zero, infinities and NaN are not part of this model.
  */
module Numeric {

  const SCALE: real := 1000000.0

  /** Nearest integer, ties toward +infinity, by comparing the fractional part. */
  function RoundHalfUp(x: real): int {
    var f := x.Floor;
    if x - f as real >= 0.5 then f + 1 else f
  }

  /** The rounded value is the one integer within half a unit, the upper one on a tie. */
  lemma RoundHalfUpIff(x: real, r: int)
    ensures r == RoundHalfUp(x) <==> r as real - 0.5 <= x < r as real + 0.5
  {}

  lemma RoundMonotone(x: real, y: real)
    requires x <= y
    ensures RoundHalfUp(x) <= RoundHalfUp(y)
  {
    RoundHalfUpIff(x, RoundHalfUp(x));
    RoundHalfUpIff(y, RoundHalfUp(y));
  }

  function Quantize(value: real): int {
    RoundHalfUp(value * SCALE)
  }

  function Dequantize(q: int): real {
    q as real / SCALE
  }

  /** Grid values survive the wire exactly. */
  lemma QuantizeGrid(q: int)
    ensures Quantize(Dequantize(q)) == q
  {
    assert Dequantize(q) * SCALE == q as real;
  }

  lemma QuantizeMonotone(v: real, w: real)
    requires v <= w
    ensures Quantize(v) <= Quantize(w)
  {
    RoundMonotone(v * SCALE, w * SCALE);
  }

  /** Quantizing never leaves an interval whose ends are on the grid. */
  lemma QuantizeWithin(lo: int, hi: int, v: real)
    requires Dequantize(lo) <= v <= Dequantize(hi)
    ensures lo <= Quantize(v) <= hi
    ensures Dequantize(lo) <= Dequantize(Quantize(v)) <= Dequantize(hi)
  {
    QuantizeMonotone(Dequantize(lo), v);
    QuantizeMonotone(v, Dequantize(hi));
    QuantizeGrid(lo);
    QuantizeGrid(hi);
  }

  /** What the wire loses: at most half a grid step. */
  lemma QuantizeError(v: real)
    ensures -0.5 / SCALE < Dequantize(Quantize(v)) - v <= 0.5 / SCALE
  {
    RoundHalfUpIff(v * SCALE, Quantize(v));
  }
}
