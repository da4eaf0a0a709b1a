/** Option and Result wrappers, and the engine's two kinds of exception.
    A C++ `throw` is modelled as an `Err` result that the caller propagates. */
module Wrappers {
  /** `std::runtime_error` (a failed driver or loader call) and
      `std::invalid_argument` (a layout transition outside the table). */
  datatype Error = RuntimeError(message: string) | InvalidArgument(message: string)

  datatype Option<+T> = None | Some(value: T)

  datatype Result<+T> = Ok(value: T) | Err(error: Error) {
    predicate IsFailure() {
      Err?
    }

    function PropagateFailure<U>(): Result<U>
      requires Err?
    {
      Err(error)
    }

    function Extract(): T
      requires Ok?
    {
      value
    }
  }
}
