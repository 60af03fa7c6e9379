/** Python's `round`. */
module Rounding {
  /** To the nearest integer, ties to the even one. */
  function Round(x: real): int {
    var f := x.Floor;
    var rest := x - f as real;
    if rest < 0.5 then f else if rest > 0.5 then f + 1 else if f % 2 == 0 then f else f + 1
  }

  lemma RoundBounds(x: real)
    ensures x - 0.5 <= Round(x) as real <= x + 0.5
    ensures x >= 0.0 ==> Round(x) >= 0
  {
  }

  /** `round(x, 6)`. */
  function ToMicros(x: real): real { Round(x * 1000000.0) as real / 1000000.0 }

  lemma ToMicrosIsNear(x: real)
    ensures -0.0000005 <= ToMicros(x) - x <= 0.0000005
    ensures x >= 0.0 ==> ToMicros(x) >= 0.0
  {
    RoundBounds(x * 1000000.0);
    assert ToMicros(x) * 1000000.0 == Round(x * 1000000.0) as real;
  }
}
