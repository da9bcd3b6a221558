/** Failure outcomes of the engine. Every exception the source throws
    (IllegalArgumentException, IllegalStateException, IndexOutOfBoundsException,
    ArithmeticException) becomes a tagged `Err` value that callers propagate
    with `:-`, so a fatal defect is one top-level, non-recoverable outcome. */
module Outcomes {

  datatype Failure =
    | IllegalArgument(message: string)
    | IllegalState(message: string)
    | IndexOutOfBounds(message: string)
    | Arithmetic(message: string)

  datatype Result<+T> = Ok(value: T) | Err(error: Failure) {
    predicate IsFailure() { Err? }

    function PropagateFailure<U>(): Result<U>
      requires Err?
    {
      Err(error)
    }

    function Extract(): T
      requires Ok?
    {
      value
    }
  }

  datatype Option<+T> = None | Some(value: T)

  /** The result of an operation that returns nothing but may throw. */
  type Outcome = Result<()>

  const Pass: Outcome := Ok(())
}
