/** Failure-carrying values used wherever the service calls a step that may
    raise. A Python exception is modelled by `Err` carrying the exception's
    text, which is what `str(e)` shows to the caller. */
module Wrappers {

  datatype Option<+T> = None | Some(value: T)

  datatype Result<+T> = Ok(value: T) | Err(message: string) {

    predicate IsFailure() {
      Err?
    }

    function PropagateFailure<U>(): Result<U>
      requires Err?
    {
      Err(message)
    }

    function Extract(): T
      requires Ok?
    {
      value
    }
  }
}
