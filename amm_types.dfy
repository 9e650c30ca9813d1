/**
 * Machine integers, the program's error enum and the failure-compatible
 * result type shared by every module of the model.
 */
module AmmTypes {

  /** Largest value of a Rust `u64`. */
  const U64_MAX: int := 0xFFFF_FFFF_FFFF_FFFF

  /** Token amounts, vault balances and mint supplies are all `u64`. */
  type U64 = x: int | 0 <= x <= U64_MAX

  /** The program's own error codes (`AMMError`). */
  datatype AmmError = MinAmount | NotValidAsset | AmountZero | Overflow | SlippageLimitExceeded

  /**
   * Every way an instruction can end unsuccessfully: a `require!` of the
   * program, a Rust panic on `/` by zero or on `u64` overflow, or an error
   * returned by the token program.
   */
  datatype Failure =
    | Program(code: AmmError)
    | DivisionByZero
    | ArithmeticOverflow
    | InsufficientFunds
    | TokenOverflow

  /** Rust's `Result<T>`; `Result<()>` is what every instruction returns. */
  datatype Result<+T> = Ok(value: T) | Err(failure: Failure) {
    predicate IsFailure() { Err? }

    function PropagateFailure<U>(): Result<U>
      requires Err?
    {
      Err(failure)
    }

    function Extract(): T
      requires Ok?
    {
      value
    }
  }

  type Outcome = Result<()>

  const Done: Outcome := Ok(())

}
