/**
 * The part of JavaScript's `number` that the storage metrics rely on: finite
 * values (kept exact, so rounding is not modelled), the two infinities and NaN.
 */
module JsNumber {

  datatype Num = Finite(value: real) | PosInf | NegInf | NaN

  /**
   * `Number(a) / Number(b)` for two bigints. A zero divisor gives an infinity
   * whose sign is that of `a`, or NaN when `a` is zero as well.
   */
  function Divide(a: int, b: int): (r: Num)
    ensures b != 0 ==> r == Finite(a as real / b as real)
    ensures b == 0 && a > 0 ==> r == PosInf
    ensures b == 0 && a < 0 ==> r == NegInf
    ensures b == 0 && a == 0 ==> r == NaN
  {
    if b != 0 then Finite(a as real / b as real)
    else if a > 0 then PosInf
    else if a < 0 then NegInf
    else NaN
  }

  /** JavaScript's `x >= t` against a finite threshold: NaN compares false. */
  predicate AtLeast(x: Num, t: real)
  {
    match x
    case Finite(v) => v >= t
    case PosInf => true
    case NegInf => false
    case NaN => false
  }

  /** For a positive divisor the quotient test is the cross-multiplied test. */
  lemma QuotientAtLeast(a: int, b: int, m: int)
    ensures b > 0 ==> (AtLeast(Divide(a, b), m as real) <==> a >= m * b)
  {
    if b <= 0 { return; }
    var q := a as real / b as real;
    assert q * b as real == a as real;
    assert (m * b) as real == m as real * b as real;
    if q >= m as real {
      assert q * b as real >= m as real * b as real;
    } else {
      assert q * b as real < m as real * b as real;
    }
  }
}
