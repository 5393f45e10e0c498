/** The two exception classes the library raises, and the Option/Result
    wrappers that stand for "raise or return" in this model. */
module Outcomes {

  /** `UnitError` is the library's own exception class; `TypeError` is
      Python's built-in one. Both carry the message the library passes. */
  datatype Error = UnitError(message: string) | TypeError(message: string)

  /** An optional slot: a compound unit's denominator may be absent (`None`). */
  datatype Option<T> = None | Some(value: T)

  /** The outcome of an operation that may raise. */
  datatype Result<T> = Ok(value: T) | Err(error: Error) {
    predicate IsFailure() { Err? }

    function PropagateFailure<R>(): Result<R>
      requires Err?
    {
      Err(error)
    }

    function Extract(): T
      requires Ok?
    {
      value
    }
  }
}
