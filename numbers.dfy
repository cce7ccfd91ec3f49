/** The host's 256-bit unsigned integer `U256`, with the checked and
    saturating operations the contract uses. */
module Numbers {
  import opened Wrappers

  /** 2^256 - 1, the largest `U256`. */
  const MAX_U256: nat := 0xffff_ffff_ffff_ffff_ffff_ffff_ffff_ffff_ffff_ffff_ffff_ffff_ffff_ffff_ffff_ffff

  type U256 = x: nat | x <= MAX_U256

  /** `U256::checked_add`: the sum when it fits in 256 bits, `None` on overflow. */
  function CheckedAdd(a: U256, b: U256): (r: Option<U256>)
    ensures r.Some? <==> a + b <= MAX_U256
    ensures r.Some? ==> r.value == a + b
  {
    if a + b <= MAX_U256 then Some(a + b) else None
  }

  /** `U256::checked_sub`: the difference when it is not negative, `None` otherwise. */
  function CheckedSub(a: U256, b: U256): (r: Option<U256>)
    ensures r.Some? <==> b <= a
    ensures r.Some? ==> r.value + b == a
  {
    if b <= a then Some(a - b) else None
  }

  /** `U256::saturating_add`: the sum, clamped at 2^256 - 1. */
  function SaturatingAdd(a: U256, b: U256): (r: U256)
    ensures a <= r && b <= r
    ensures r == a + b || (r == MAX_U256 && a + b > MAX_U256)
  {
    if a + b <= MAX_U256 then a + b else MAX_U256
  }

  /** `U256::saturating_sub`: the difference, clamped at 0. */
  function SaturatingSub(a: U256, b: U256): (r: U256)
    ensures r <= a
    ensures r == a - b || (r == 0 && a < b)
  {
    if b <= a then a - b else 0
  }
}
