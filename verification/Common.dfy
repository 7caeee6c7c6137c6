/** Shared result types: what the services throw becomes a value. */
module Common {
  datatype Option<+T> = None | Some(value: T)

  /** Every reason for which one of the modelled requests is thrown out. */
  datatype Error =
    | TooFewLegs
    | NonPositiveLeg
    | Unbalanced
    | NoAccount
    | AmountNotPositive
    | DuplicateKey
    | NotFound
    | Forbidden
    | WalletClosed
    | WalletBlocked
    | NotSupported
    | InsufficientBalance
    | RepositoryShort
    | CeilingExceeded
    | PoolExceeded
    | Conflict
    | Gone
    | InvalidRequest
    | NothingOutstanding
    | StillOwing

  datatype Result<+T> = Ok(value: T) | Fail(error: Error) {
    predicate IsFailure() { Fail? }

    function PropagateFailure<U>(): Result<U>
      requires Fail?
    {
      Fail(error)
    }

    function Extract(): T
      requires Ok?
    {
      value
    }
  }

  /** The outcome of a guard: either the request goes on, or it is thrown out. */
  datatype Guard = Pass | Stop(error: Error) {
    predicate IsFailure() { Stop? }

    function PropagateFailure<U>(): Result<U>
      requires Stop?
    {
      Fail(error)
    }
  }

  function Check(condition: bool, error: Error): Guard {
    if condition then Pass else Stop(error)
  }

  function Abs(x: int): nat {
    if x < 0 then -x else x
  }

  function Max(x: int, y: int): int {
    if x < y then y else x
  }
}
