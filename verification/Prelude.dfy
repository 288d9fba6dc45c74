/** Integer widths, the error type and the checked/saturating operations every handler uses. */
module Prelude {

  const U8_MAX: int := 0xff
  const U32_MAX: int := 0xffff_ffff
  const U64_MAX: int := 0xffff_ffff_ffff_ffff
  const I64_MIN: int := -0x8000_0000_0000_0000
  const I64_MAX: int := 0x7fff_ffff_ffff_ffff

  type u8 = x: int | 0 <= x <= U8_MAX
  type u32 = x: int | 0 <= x <= U32_MAX
  type u64 = x: int | 0 <= x <= U64_MAX
  type i64 = x: int | I64_MIN <= x <= I64_MAX

  datatype Option<+T> = None | Some(value: T) {
    predicate IsFailure() { None? }

    function PropagateFailure<U>(): Option<U>
      requires None?
    {
      None
    }

    function Extract(): T
      requires Some?
    {
      value
    }
  }

  /** The program's own errors, and the account-validation and token errors a transaction can also end with. */
  datatype VaultError =
    // raised by the program
    | CoolingOffNotElapsed
    | PendingVouchersExist
    | NoPendingWithdrawal
    | PasskeyVerificationFailed
    | InvalidVoucherSignature
    | ForceReleaseTooEarly
    | NothingToRelease
    | UnsupportedVaultVersion
    | SessionAlreadyActive
    | SessionExpiryInPast
    | SessionCapZero
    | NoActiveSession
    | RevolvingCapacityExceeded
    | RevolvingCapacityZero
    | LockRangeAlreadyClaimed
    | LockWouldOvercommitVault
    | WithdrawalWouldViolateReservation
    | SessionWouldOvercommitVault
    | SessionAccountsNotSorted
    | SessionAccountForeign
    | SessionAccountMisderived
    | IncompleteSessionSet
    | SessionCountAtMax
    | RecoveryBeforeMaturity
    | StandbyCapZero
    | CreditWouldExceedStandbyCap
    | WithdrawalWouldViolatePin
    | BorrowRecoveryTooEarly
    | NoStandbyBacker
    | NothingBorrowed
    | StandbyWouldExceedReserve
    | ReserveBelowPromised
    | ResizeBelowBorrowed
    | StandbyStillBorrowed
    | NoStandbyBackerLedger
    | StandbyBackerMismatch
    | FinancierConsentMissing
    | SessionAccountNotWritable
    | SessionStillLive
    | NotALegacyVault
    // raised by account validation, by Borsh and by the token program
    | AccountMissing
    | AccountInUse
    | ConstraintSeeds
    | ConstraintSigner
    | BorshError
    | InsufficientFunds
    | ArithmeticOverflow

  datatype Result<+T> = Ok(value: T) | Err(error: VaultError) {
    predicate IsFailure() { Err? }

    function PropagateFailure<U>(): Result<U>
      requires Err?
    {
      Err(error)
    }

    function Extract(): T
      requires Ok?
    {
      value
    }
  }

  /** The outcome of a bare check, usable with `:-` where a Result is returned. */
  datatype Check = Pass | Fail(error: VaultError) {
    predicate IsFailure() { Fail? }

    function PropagateFailure<U>(): Result<U>
      requires Fail?
    {
      Err(error)
    }
  }

  function Need(condition: bool, error: VaultError): Check {
    if condition then Pass else Fail(error)
  }

  function OkOr<T>(o: Option<T>, error: VaultError): Result<T> {
    match o
    case Some(x) => Ok(x)
    case None => Err(error)
  }

  function Min(a: int, b: int): (m: int)
    ensures m <= a && m <= b && (m == a || m == b)
  {
    if a <= b then a else b
  }

  function Max(a: int, b: int): (m: int)
    ensures m >= a && m >= b && (m == a || m == b)
  {
    if a >= b then a else b
  }

  function CheckedAdd64(a: u64, b: u64, error: VaultError): Result<u64> {
    if a + b <= U64_MAX then Ok(a + b) else Err(error)
  }

  function CheckedSub64(a: u64, b: u64, error: VaultError): Result<u64> {
    if b <= a then Ok(a - b) else Err(error)
  }

  function CheckedAdd8(a: u8, b: u8, error: VaultError): Result<u8> {
    if a + b <= U8_MAX then Ok(a + b) else Err(error)
  }

  function CheckedSub8(a: u8, b: u8, error: VaultError): Result<u8> {
    if b <= a then Ok(a - b) else Err(error)
  }

  function SatAdd64(a: u64, b: u64): u64 { Min(a + b, U64_MAX) }

  function SatSub64(a: u64, b: u64): u64 { Max(a - b, 0) }

  function SatAdd32(a: u32, b: u32): u32 { Min(a + b, U32_MAX) }

  function SatSub32(a: u32, b: u32): u32 { Max(a - b, 0) }

  /** i64 saturating_sub. */
  function SatSubI64(a: i64, b: i64): i64 { Max(I64_MIN, Min(a - b, I64_MAX)) }
}
