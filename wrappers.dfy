/** Failure-compatible result types shared by every module, and the Python
    exceptions the modelled scripts can raise while scraping text. */
module Wrappers {

  datatype Option<+T> = None | Some(value: T)

  datatype Result<+T, +E> = Ok(value: T) | Err(error: E) {
    predicate IsFailure() { Err? }

    function PropagateFailure<U>(): Result<U, E>
      requires Err?
    {
      Err(error)
    }

    function Extract(): T
      requires Ok?
    {
      value
    }
  }

  /** The uncaught exceptions of the scripts: a list index out of range,
      a failed int()/float() conversion, and opening a log that is absent. */
  datatype PyError = IndexError | ValueError | FileNotFoundError
}
