/** Numeric conventions of the C program, stated over Dafny's exact `real` and `int`.
    A `float` or `double` of the source is a `real` here; what the source does with it
    when it leaves the reals (a cast, `round`, a division by zero) is written out. */
module Numerics {

  datatype Option<T> = None | Some(value: T)

  /** The outcome of a floating-point division: a finite value or one of the IEEE specials. */
  datatype Float = Num(value: real) | PosInf | NegInf | NaN

  function Abs(x: real): (r: real)
    ensures r >= 0.0 && (r == x || r == -x)
  {
    if x < 0.0 then -x else x
  }

  /** C `round`: the nearest integer, halfway cases away from zero. */
  function Round(x: real): (r: int)
    ensures x - 0.5 <= r as real <= x + 0.5
    ensures x >= 0.0 ==> r >= 0
    ensures x <= 0.0 ==> r <= 0
  {
    if x >= 0.0 then (x + 0.5).Floor else -((-x + 0.5).Floor)
  }

  /** C conversion of a floating-point value to an integer type: truncation toward zero. */
  function Trunc(x: real): (r: int)
    ensures x >= 0.0 ==> 0 <= r && r as real <= x < r as real + 1.0
    ensures x < 0.0 ==> r <= 0 && r as real - 1.0 < x <= r as real
  {
    if x >= 0.0 then x.Floor else -((-x).Floor)
  }

  /** IEEE division `x / d`: a zero divisor gives an infinity of the dividend's sign, or NaN for 0/0. */
  function Divide(x: real, d: real): (r: Float)
    ensures d != 0.0 ==> r.Num? && r.value * d == x
    ensures d == 0.0 ==> (r.NaN? <==> x == 0.0)
  {
    if d != 0.0 then Num(x / d)
    else if x > 0.0 then PosInf
    else if x < 0.0 then NegInf
    else NaN
  }

  /** Rounding never leaves a range with integer bounds. */
  lemma RoundWithin(x: real, lo: int, hi: int)
    requires lo as real <= x <= hi as real
    ensures lo <= Round(x) <= hi
  {
    var r := Round(x);
    assert r as real <= hi as real + 0.5;
    assert r as real >= lo as real - 0.5;
  }

  /** Truncation is monotone. */
  lemma {:induction false} TruncMonotone(x: real, y: real)
    requires x <= y
    ensures Trunc(x) <= Trunc(y)
  {
  }
}
