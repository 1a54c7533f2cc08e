/** Failure values shared by the whole model: the exceptions the C# code throws
    become `Err` values, and a C# `null` becomes `None`. */
module Errors {

  /** The .NET exception types the modelled code throws. */
  datatype Error =
    | ArgumentException
    | ArgumentOutOfRangeException
    | InvalidOperationException
    | NullReferenceException

  datatype Option<+T> = None | Some(value: T) {
    function GetOr(default: T): T {
      match this
      case Some(v) => v
      case None => default
    }
  }

  datatype Result<+T> = Ok(value: T) | Err(error: Error)
}
