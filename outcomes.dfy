/** Failure-compatible wrappers shared by the memoizers: an optional value
    (the C++ code's empty `flow::any`) and a result that is either a value or
    one of the configuration errors a memoizer throws. */
module Outcomes {

  datatype Option<+T> = None | Some(value: T)

  /** The two `std::runtime_error`s thrown by the dynamically typed memoizers. */
  datatype MemoError = DefaultArityMismatch | MapArityMismatch
  {
    /** The message carried by the thrown exception, spelled as in the source. */
    function Message(): string
    {
      match this
      case DefaultArityMismatch =>
        "Default Memoize Error: size of args and equility_checks are mismatch."
      case MapArityMismatch =>
        "Map Memoize Error: size of args and keys are mismatch."
    }
  }

  /** A call either returns a value or throws a `MemoError`. */
  datatype Result<+T> = Ok(value: T) | Err(error: MemoError)
}
