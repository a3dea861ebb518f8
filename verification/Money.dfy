/** Integer minor units with checked arithmetic. */
module Money {
  import opened Prelude

  /** THBC minor units; the same unit measures fiat in the reserve. */
  type Thb = u64

  /** GRX atoms, nine decimals. */
  type Grx = u64

  const GRX_ATOMS_PER_WHOLE: int := 1_000_000_000
  const BPS_SCALE: int := 10_000

  function CheckedAdd(a: u64, b: u64): CoreResult<u64> {
    if a + b > U64_MAX then Err(MathOverflow) else Ok(a + b)
  }

  function CheckedSub(a: u64, b: u64): CoreResult<u64> {
    if a < b then Err(Underflow) else Ok(a - b)
  }

  function SaturatingSub(a: u64, b: u64): u64 {
    if a < b then 0 else a - b
  }

  /** `u128::checked_mul` followed by a truncating division and `u64::try_from`. */
  function MulDiv(a: u64, b: u64, divisor: int): CoreResult<u64>
    requires divisor > 0
  {
    if a * b > U128_MAX then Err(MathOverflow)
    else if a * b / divisor > U64_MAX then Err(MathOverflow)
    else ProductQuotientNonNegative(a, b, divisor); Ok(a * b / divisor)
  }

  lemma ProductQuotientNonNegative(a: nat, b: nat, divisor: int)
    requires divisor > 0
    ensures a * b / divisor >= 0
  {
  }

  /** A basis-point fee, truncated toward zero. */
  function FeeBps(amount: u64, bps: u16): CoreResult<u64> {
    MulDiv(amount, bps, BPS_SCALE)
  }
}
