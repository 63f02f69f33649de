/** Option and Result values, and the exceptions the extension methods throw. */
module Wrappers {

  /** A value that may be absent: `None` stands for a C# `null`. */
  datatype Option<+T> = None | Some(value: T) {
    function GetOr(default: T): T {
      match this
      case Some(v) => v
      case None => default
    }
  }

  /** The outcome of an operation that may throw. */
  datatype Result<+T, +E> = Success(value: T) | Failure(error: E)

  /** The exceptions thrown by the modelled code, or propagated through it. */
  datatype Exception =
    | ArgumentNull(paramName: string)
    | Argument(paramName: string)
    | InvalidOperation
    | ConfigurationBinding(key: string)
}
