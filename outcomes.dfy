/** The exceptions the ledgers raise, as a closed set of error values, and
    the shapes their operations return. */
module Outcomes {

  datatype Error =
    | UserExists              // UserExistsException: id already registered
    | UserDoesNotExist        // UserDoesNotExistException: id not registered
    | NotEnoughCash(limit: int) // NotEnoughCashException, with the affordable share count in its message
    | InvalidShares           // InvalidSharesException: non-positive count or more than held
    | DivisionByZero          // Python's ZeroDivisionError from `int(cash / price)` at price 0

  /** An operation that returns nothing (or `True`) on success. */
  datatype Outcome = Pass | Fail(error: Error)

  /** An operation that returns a value on success. */
  datatype Result<T> = Success(value: T) | Failure(error: Error)

  datatype Option<T> = None | Some(value: T)
}
