/**
 * The failures the booking core raises. `BusinessException` carries a
 * message and an HTTP status (BAD_REQUEST unless the thrower says
 * otherwise); a failed repository lookup raises `EntityNotFoundException`.
 * A Java method that either returns normally or throws is modelled as a
 * function returning `Outcome` (for `void`) or `Result<T>`.
 */
module Exceptions {

  datatype HttpStatus = BAD_REQUEST | FORBIDDEN

  datatype Error =
    | BusinessException(message: string, httpStatus: HttpStatus)
    | EntityNotFoundException(message: string)

  /** A value of T, or the exception that was thrown instead. */
  datatype Result<+T> = Ok(value: T) | Err(error: Error) {
    predicate IsFailure() { Err? }

    function PropagateFailure<U>(): Result<U>
      requires Err?
    {
      Err(error)
    }

    function Extract(): T
      requires Ok?
    {
      value
    }
  }

  /** The outcome of a `void` check: it passes, or it throws. */
  datatype Outcome = Pass | Fail(error: Error) {
    predicate IsFailure() { Fail? }

    function PropagateFailure<U>(): Result<U>
      requires Fail?
    {
      Err(error)
    }
  }

  /** A Java reference that may be null. */
  datatype Option<+T> = None | Some(value: T)

  /** `new BusinessException(message)`: the one-argument constructor defaults to BAD_REQUEST. */
  function BadRequest(message: string): Error
  {
    BusinessException(message, BAD_REQUEST)
  }
}
