/**
 * Option and Result types shared by every module, and the model of the
 * Python exceptions that the pipeline's pure code can raise on malformed
 * payload values.
 */
module Outcomes {

  datatype Option<+T> = None | Some(value: T)

  /** The exception classes the sanitisers, composers and the slot search can raise. */
  datatype Fault =
    | TypeError(detail: string)
    | AttributeError(detail: string)
    | KeyError(detail: string)
    | IndexError(detail: string)
    | ValueError(detail: string)
  {
    /** What `str(e)` gives for the exception. */
    function Message(): string {
      match this
      case TypeError(d) => d
      case AttributeError(d) => d
      case KeyError(d) => d
      case IndexError(d) => d
      case ValueError(d) => d
    }
  }

  /** A computation that either returns a value or raises. */
  datatype Result<+T> = Ok(value: T) | Err(fault: Fault) {
    predicate IsFailure() { Err? }

    function PropagateFailure<U>(): Result<U>
      requires Err?
    {
      Err(fault)
    }

    function Extract(): T
      requires Ok?
    {
      value
    }
  }
}
