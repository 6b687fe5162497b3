/**
 * The fixed-width unsigned integers the components count with (`u16`, and
 * `usize` on a 64-bit target) and Rust's saturating arithmetic on them.
 */
module Saturating {

  const U16_MAX: int := 0xFFFF
  const USIZE_MAX: int := 0xFFFF_FFFF_FFFF_FFFF

  type U16 = x: int | 0 <= x <= U16_MAX
  type USize = x: int | 0 <= x <= USIZE_MAX

  /** `x.saturating_sub(k)` for unsigned `x` and `k`. */
  function SaturatingSub(x: nat, k: nat): (r: nat)
    ensures r <= x
    ensures k <= x ==> r + k == x
    ensures x < k ==> r == 0
  {
    if k <= x then x - k else 0
  }

  /** `x.saturating_add(k)` in a type whose largest value is `max`. */
  function SaturatingAdd(x: nat, k: nat, max: nat): (r: nat)
    requires x <= max
    ensures x <= r <= max
    ensures x + k <= max ==> r == x + k
    ensures max < x + k ==> r == max
  {
    if x + k <= max then x + k else max
  }
}
