/** Small shared vocabulary: optional values, results with an error message,
    and the rounding the JavaScript engines use when they emit a figure. */
module Common {

  datatype Option<+T> = None | Some(value: T)

  datatype Result<+T> = Success(value: T) | Failure(error: string)

  /** JavaScript's Math.round on an exact real: halves round towards +infinity. */
  function Round(x: real): (r: int)
    ensures x - 1.0 / 2.0 < r as real <= x + 1.0 / 2.0
  {
    (x + 1.0 / 2.0).Floor
  }

  /** Rounding never reorders two figures. */
  lemma RoundMonotone(x: real, y: real)
    requires x <= y
    ensures Round(x) <= Round(y)
  {
    assert Round(x) as real <= x + 1.0 / 2.0 <= y + 1.0 / 2.0;
    assert (Round(y) + 1) as real > y + 1.0 / 2.0;
  }

  /** A figure that is already whole is emitted unchanged. */
  lemma RoundWhole(n: int)
    ensures Round(n as real) == n
  {
  }

  /** `Math.max` of two figures. */
  function RealMax(a: real, b: real): (r: real)
    ensures r >= a && r >= b && (r == a || r == b)
  {
    if a >= b then a else b
  }

  /** `Math.min` of two figures. */
  function RealMin(a: real, b: real): (r: real)
    ensures r <= a && r <= b && (r == a || r == b)
  {
    if a <= b then a else b
  }
}
