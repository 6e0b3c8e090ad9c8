/** Arithmetic shared by the model: absolute values, sums and means over reals,
    and the Java narrowing cast from double to int. */
module Numerics {

  const INT_MIN: int := -0x8000_0000
  const INT_MAX: int := 0x7FFF_FFFF

  /** Double.MAX_VALUE, exactly. */
  const DOUBLE_MAX: real := 179769313486231570814527423731704356798070567525844996598917476803157260780028538760589558632766878171540458953514382464234321326889464182768467546703537516986049910576551282076245490090389328944075868508455133942304583236903222948165808559332123348274797826204144723168738177180919299881250404026184124858368.0

  function Abs(x: real): (r: real)
    ensures r >= 0.0 && (r == x || r == -x)
  {
    if x < 0.0 then -x else x
  }

  function MinR(a: real, b: real): (r: real)
    ensures r <= a && r <= b && (r == a || r == b)
  {
    if a <= b then a else b
  }

  function MaxR(a: real, b: real): (r: real)
    ensures r >= a && r >= b && (r == a || r == b)
  {
    if a >= b then a else b
  }

  /** Sum of a sequence, accumulated from the front as the source's loops do. */
  function Sum(s: seq<real>): real
  {
    if |s| == 0 then 0.0 else Sum(s[..|s| - 1]) + s[|s| - 1]
  }

  /** Arithmetic mean; 0 for the empty sequence. */
  function Average(s: seq<real>): real
  {
    if |s| == 0 then 0.0 else Sum(s) / (|s| as real)
  }

  lemma SumAppend(s: seq<real>, v: real)
    ensures Sum(s + [v]) == Sum(s) + v
  {
    assert (s + [v])[..|s + [v]| - 1] == s;
  }

  /** The running-average update `avg = (avg * n + v) / (n + 1)` keeps the mean. */
  lemma {:induction false} AverageAppend(s: seq<real>, v: real)
    ensures Average(s + [v]) == (Average(s) * (|s| as real) + v) / ((|s| + 1) as real)
  {
    SumAppend(s, v);
    var n := |s| as real;
    if |s| > 0 {
      calc {
        Average(s) * n;
        (Sum(s) / n) * n;
        Sum(s);
      }
    }
  }

  /** Truncation toward zero, as Java's narrowing of a double does. */
  function Trunc(x: real): (k: int)
    ensures Abs(k as real) <= Abs(x) < Abs(k as real) + 1.0
    ensures x >= 0.0 ==> k >= 0
    ensures x <= 0.0 ==> k <= 0
  {
    if x >= 0.0 then x.Floor else -((-x).Floor)
  }

  /** Java's `(int) d` for a finite double: truncation toward zero, saturating at the int range. */
  function JavaIntOfReal(x: real): (k: int)
    ensures INT_MIN <= k <= INT_MAX
    ensures INT_MIN <= Trunc(x) <= INT_MAX ==> k == Trunc(x)
  {
    var t := Trunc(x);
    if t < INT_MIN then INT_MIN else if t > INT_MAX then INT_MAX else t
  }

  /** An unsigned 8-bit value, as read from a stream or written into a byte buffer. */
  newtype byte = x: int | 0 <= x < 256
}
