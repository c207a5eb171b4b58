/**
 * Numeric conventions the simulation relies on: the wrapping `u8`
 * subtraction of colour channels and Rust's remainder on floats.
 */
module Numerics {
  /** An unsigned 8-bit integer, the type of a colour channel. */
  newtype u8 = x: int | 0 <= x < 256

  /**
   * `a - b` on `u8` as a release build computes it: the difference wraps
   * around modulo 256 (a debug build panics when `b > a`).
   */
  function WrapSub(a: u8, b: u8): (r: u8)
    ensures (b as int + r as int) % 256 == a as int
    ensures b <= a ==> r == a - b
    ensures r == 0 <==> a == b
  {
    ((a as int - b as int) % 256) as u8
  }

  /** `f32::min`. */
  function Min(a: real, b: real): real { if a <= b then a else b }

  /** `f32::max`. */
  function Max(a: real, b: real): real { if a >= b then a else b }

  /** Rounding toward zero. */
  function Trunc(x: real): (t: int)
    ensures x >= 0.0 ==> t as real <= x < t as real + 1.0
    ensures x <= 0.0 ==> t as real - 1.0 < x <= t as real
  {
    if x >= 0.0 then x.Floor else -((-x).Floor)
  }

  /**
   * `x % 360.` on floats, Rust's remainder (C's `fmod`): what is left of x
   * after removing whole turns counted by the quotient truncated toward
   * zero, so the result takes the sign of the dividend.  Every float
   * remainder in the simulation is by 360.
   */
  function Fmod360(x: real): (r: real)
    ensures x >= 0.0 ==> 0.0 <= r < 360.0
    ensures x <= 0.0 ==> -360.0 < r <= 0.0
    ensures ((x - r) / 360.0).Floor as real * 360.0 == x - r
  {
    var k := Trunc(x / 360.0);
    x - k as real * 360.0
  }

  /** A dividend already strictly inside (-360, 360) is its own remainder. */
  lemma Fmod360Small(x: real)
    requires -360.0 < x < 360.0
    ensures Fmod360(x) == x
  {
    assert Trunc(x / 360.0) == 0;
  }
}
