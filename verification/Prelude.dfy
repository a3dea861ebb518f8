/** Shared vocabulary: machine integers, results, and the domain and port errors. */
module Prelude {

  const U64_MAX: int := 0xFFFF_FFFF_FFFF_FFFF
  const U128_MAX: int := 0xFFFF_FFFF_FFFF_FFFF_FFFF_FFFF_FFFF_FFFF
  const U32_MAX: int := 0xFFFF_FFFF
  const I64_MAX: int := 0x7FFF_FFFF_FFFF_FFFF
  const I64_MIN: int := -0x8000_0000_0000_0000

  type u64 = x: int | 0 <= x <= U64_MAX
  type u32 = x: int | 0 <= x <= U32_MAX
  type u16 = x: int | 0 <= x <= 0xFFFF
  type i64 = x: int | I64_MIN <= x <= I64_MAX

  datatype Option<+T> = None | Some(value: T)

  datatype Result<+T, +E> = Ok(value: T) | Err(error: E) {
    predicate IsFailure() { Err? }

    function PropagateFailure<U>(): Result<U, E>
      requires Err?
    {
      Err(error)
    }

    function Extract(): T
      requires Ok?
    {
      value
    }
  }

  datatype Unit = Unit

  /** Domain refusals. Payloads are kept where the source reports figures or states. */
  datatype CoreError =
    | MathOverflow
    | Underflow
    | ZeroAmount
    | MissingBeneficiaryWallet
    | ReserveInsufficient(requested: u64, resultingSupply: u64, freeBacking: u64,
                          attestedReserve: u64, encumbered: u64)
    | StaleAttestation(ageSecs: i64, ttlSecs: i64)
    | AttestationInFuture(ts: i64, now: i64)
    | EmptyBankRef
    | InvalidDepositTransition(from: string, to: string)
    | InvalidRedemptionTransition(from: string, to: string)
    | BurnNotConfirmed(state: string)
    | TimelockNotExpired(elapsedSecs: i64, deltaSecs: i64)
    | InsufficientInventory(needed: u64, available: u64, asset: string)
    | RateNotSet
    | InvalidFeeBps(bps: u16)
    | ReconciliationDrift(issued: u64, redeemed: u64, expected: u64, actual: u64, drift: int)
    | Paused

  /** Errors crossing a port. The human-readable text is not modelled. */
  datatype PortError =
    | Transient
    | Rejected
    | Unsupported
    | NotFound
    | Conflict
    | Domain(cause: CoreError)

  type CoreResult<+T> = Result<T, CoreError>
  type PortResult<+T> = Result<T, PortError>

  /** `map_err(PortError::Domain)`. */
  function Port<T>(r: CoreResult<T>): PortResult<T> {
    match r
    case Ok(v) => Ok(v)
    case Err(e) => Err(Domain(e))
  }

  /** `i64::saturating_sub`. */
  function SaturatingSubI64(a: i64, b: i64): i64 {
    if a - b > I64_MAX then I64_MAX else if a - b < I64_MIN then I64_MIN else a - b
  }

  /** `i64::saturating_add`. */
  function SaturatingAddI64(a: i64, b: i64): i64 {
    if a + b > I64_MAX then I64_MAX else if a + b < I64_MIN then I64_MIN else a + b
  }

  /** `u32::try_from(n).unwrap_or(u32::MAX)`. */
  function SaturateU32(n: nat): u32 {
    if n <= U32_MAX then n else U32_MAX
  }

  /** What the chain said about a submitted effect. Only `Confirmed` is a promise. */
  datatype ConfirmOutcome = Submitted | Confirmed | Failed

  /** The widths, in figures, and what saturating does at their ends. */
  lemma Widths(a: i64, b: i64, n: nat)
    ensures U64_MAX == 18_446_744_073_709_551_615 && U32_MAX == 4_294_967_295 && U128_MAX == (U64_MAX + 1) * (U64_MAX + 1) - 1
    ensures I64_MAX == 9_223_372_036_854_775_807 && I64_MIN == -9_223_372_036_854_775_808
    ensures I64_MIN <= a - b <= I64_MAX ==> SaturatingSubI64(a, b) as int == a - b
    ensures a - b > I64_MAX ==> SaturatingSubI64(a, b) == I64_MAX
    ensures a - b < I64_MIN ==> SaturatingSubI64(a, b) == I64_MIN
    ensures I64_MIN <= a + b <= I64_MAX ==> SaturatingAddI64(a, b) as int == a + b
    ensures a + b > I64_MAX ==> SaturatingAddI64(a, b) == I64_MAX
    ensures a + b < I64_MIN ==> SaturatingAddI64(a, b) == I64_MIN
    ensures SaturateU32(n) as int == if n < 4_294_967_295 then n else 4_294_967_295
  {
  }
}
