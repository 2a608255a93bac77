/** The rounding and comparisons several modules share. */
module Numbers {
  /** JavaScript's Math.round: to the nearest integer, halves upwards. */
  function Round(x: real): int { (x + 0.5).Floor }

  function Max(a: int, b: int): int { if a >= b then a else b }

  function Min(a: int, b: int): int { if a <= b then a else b }

  function MaxReal(a: real, b: real): real { if a >= b then a else b }
}
