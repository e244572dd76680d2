/**
 * Rust's numeric `as` conversions used by the screenshot widget. Integers
 * here are unbounded; the conversions that matter for the model (rounding
 * toward zero, two's-complement reinterpretation) are written out.
 */
module Casts {
  const U32_MODULUS: int := 0x1_0000_0000

  /** `x as i32` for an f64 `x`: the fractional part is dropped (rounding toward zero). */
  function TruncToInt(x: real): (r: int)
    ensures x >= 0.0 ==> 0 <= r && r as real <= x < r as real + 1.0
    ensures x < 0.0 ==> r <= 0 && r as real - 1.0 < x <= r as real
  {
    if x >= 0.0 then x.Floor else -((-x).Floor)
  }

  /** Truncation never reverses the order of two values. */
  lemma TruncMonotone(x: real, y: real)
    requires x <= y
    ensures TruncToInt(x) <= TruncToInt(y)
  {
  }

  /** `x as u32` for an i32 `x`: the same bits read as an unsigned number. */
  function AsU32(x: int): (r: nat)
    ensures r < U32_MODULUS
    ensures (x - r) % U32_MODULUS == 0
    ensures 0 <= x < U32_MODULUS ==> r == x
  {
    x % U32_MODULUS
  }

  /** `x as u32` for an f64 `x` that is not NaN: truncated, negative values saturate at 0. */
  function FloatToU32(x: real): (r: nat)
    ensures x <= 0.0 ==> r == 0
    ensures x > 0.0 ==> r as real <= x < r as real + 1.0
  {
    if x <= 0.0 then 0 else x.Floor
  }
}
