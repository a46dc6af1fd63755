/** Failure-compatible wrappers and the Python exceptions the modelled code raises. */
module Wrappers {

  datatype Option<+T> = None | Some(value: T) {
    function GetOr(default: T): T {
      match this
      case Some(v) => v
      case None => default
    }
  }

  /** The exceptions that escape a modelled operation. */
  datatype Error =
    | AttributeError(detail: string)
    | TypeError(detail: string)
    | RuntimeError(message: string)
    | Exception(message: string)
    | RecursionError
    /** An exception raised by an external collaborator (the MCP session). */
    | Raised(message: string)

  datatype Result<+R> = Success(value: R) | Failure(error: Error) {
    predicate IsFailure() {
      Failure?
    }

    function PropagateFailure<U>(): Result<U>
      requires Failure?
    {
      Failure(error)
    }

    function Extract(): R
      requires Success?
    {
      value
    }
  }
}
