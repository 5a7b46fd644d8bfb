/** Fixed-width unsigned integers and the checked arithmetic (`SafeMath`:
    `error_increment`, `error_decrement`, `error_mul`, `error_div`) that every
    counter, supply and probability computation goes through. Each operation
    fails with `Overflow` or `Underflow` instead of wrapping. */
module SafeMath {
  import opened Errors

  const U16_MAX: nat := 0xFFFF
  const U32_MAX: nat := 0xFFFF_FFFF
  const U64_MAX: nat := 0xFFFF_FFFF_FFFF_FFFF
  const U128_MAX: nat := 0xFFFF_FFFF_FFFF_FFFF_FFFF_FFFF_FFFF_FFFF

  type u8 = x: int | 0 <= x < 0x100
  type u16 = x: int | 0 <= x <= U16_MAX
  type u32 = x: int | 0 <= x <= U32_MAX
  type u64 = x: int | 0 <= x <= U64_MAX
  type u128 = x: int | 0 <= x <= U128_MAX

  /** `x.error_increment()` for an unsigned type whose largest value is
      `bound`. */
  function Increment(x: nat, bound: nat): (r: Result<nat>)
    requires x <= bound
    ensures r.Ok? <==> x < bound
    ensures r.Ok? ==> r.value == x + 1 && r.value <= bound
    ensures r.Err? ==> r.error == Packs(Overflow)
  {
    if x < bound then Ok(x + 1) else Err(Packs(Overflow))
  }

  /** `x.error_decrement()`: fails at zero. */
  function Decrement(x: nat): (r: Result<nat>)
    ensures r.Ok? <==> x > 0
    ensures r.Ok? ==> r.value + 1 == x
    ensures r.Err? ==> r.error == Packs(Underflow)
  {
    if x > 0 then Ok(x - 1) else Err(Packs(Underflow))
  }

  /** `a.error_mul(b)` in a type whose largest value is `bound`. */
  function Mul(a: nat, b: nat, bound: nat): (r: Result<nat>)
    ensures r.Ok? <==> a * b <= bound
    ensures r.Ok? ==> r.value == a * b
    ensures r.Err? ==> r.error == Packs(Overflow)
  {
    if a * b <= bound then Ok(a * b) else Err(Packs(Overflow))
  }

  /** `a.error_div(b)`: truncating division of unsigned values, failing
      (rather than panicking) on a zero divisor. */
  function Div(a: nat, b: nat): (r: Result<nat>)
    ensures r.Ok? <==> b > 0
    ensures r.Ok? ==> r.value * b <= a < (r.value + 1) * b
    ensures r.Err? ==> r.error == Packs(Overflow)
  {
    if b > 0 then Ok(a / b) else Err(Packs(Overflow))
  }
}
