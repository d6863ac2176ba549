/** Errors raised by the plotting entry points, and the Option/Result wrappers
    that carry them. Each plotting function either returns a value or raises;
    the model returns `Err` wherever the source raises. */
module Results {

  datatype Option<+T> = None | Some(value: T)

  /** The Python exception classes the modelled code can raise. */
  datatype Error =
    | ValueError(message: string)
    | Exception(message: string)
    | IndexError(message: string)
    | KeyError(key: string)
    | TypeError(message: string)
    | UnboundLocalError(message: string)
    | IndexingError(message: string)

  datatype Result<+T> = Ok(value: T) | Err(error: Error) {
    predicate IsFailure() { Err? }

    function PropagateFailure<U>(): Result<U>
      requires Err?
    {
      Err(error)
    }

    function Extract(): T
      requires Ok?
    {
      value
    }
  }
}
