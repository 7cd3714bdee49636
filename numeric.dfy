/** Python's numeric conversions on exact reals. */
module Numeric {
  /** `int(x)` on a float: truncation toward zero. */
  function Trunc(x: real): int
  {
    if x >= 0.0 then x.Floor else -((-x).Floor)
  }

  /** Truncation moves a value toward zero by less than one and keeps its sign. */
  lemma TruncBounds(x: real)
    ensures x >= 0.0 ==> 0 <= Trunc(x) && Trunc(x) as real <= x < Trunc(x) as real + 1.0
    ensures x < 0.0 ==> Trunc(x) <= 0 && x <= Trunc(x) as real < x + 1.0
  {
  }
}
