/**
 * `Math.floor`, `Math.ceil`, `Math.round` and two-decimal rounding over
 * exact reals (the model makes no claim about IEEE doubles).
 */
module Numbers {

  function Floor(x: real): (r: int)
    ensures r as real <= x < r as real + 1.0
  {
    x.Floor
  }

  /** `Math.ceil`: the least integer not below `x`. */
  function Ceil(x: real): (r: int)
    ensures x <= r as real < x + 1.0
  {
    -((-x).Floor)
  }

  /** `Math.round`: the nearest integer, halves rounded up. */
  function Round(x: real): (r: int)
    ensures r as real <= x + 0.5 < r as real + 1.0
  {
    Floor(x + 0.5)
  }

  /** `parseFloat(x.toFixed(2))`, read as rounding to a whole number of hundredths. */
  function Round2(x: real): (r: real)
    ensures -0.005 < r - x <= 0.005
  {
    Round(x * 100.0) as real / 100.0
  }

  /** A whole number is its own ceiling and its own rounding. */
  lemma WholeNumbers(n: int)
    ensures Ceil(n as real) == n && Round(n as real) == n
  {
  }

  /** Rounding is monotone, so a non-negative amount rounds to a non-negative one. */
  lemma Round2NonNegative(x: real)
    requires x >= 0.0
    ensures Round2(x) >= 0.0
  {
    assert Round(x * 100.0) >= 0;
  }
}
