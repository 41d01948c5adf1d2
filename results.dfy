/** The error kinds of the interpreter (8-interpreter/interpreter.h) and the
    failure-compatible result types that carry them through the model. */
module Results {

  /** What a call can throw. CompilingError and RuntimeError are the two
      user-facing kinds; LogicError is a bare std::logic_error (an internal
      fault of the interpreter); Undefined marks a point where the C++ code has
      undefined behaviour, and the model stops there. */
  datatype Error =
    | CompilingError(msg: string)
    | RuntimeError(msg: string)
    | LogicError(msg: string)
    | Undefined(what: string)

  datatype Option<+T> = None | Some(value: T)

  /** A value, or the error that was thrown instead. */
  datatype Result<+T> = Ok(value: T) | Err(error: Error) {
    predicate IsFailure() { Err? }

    function PropagateFailure<U>(): Result<U>
      requires Err?
    {
      Err(error)
    }

    function Extract(): T
      requires Ok?
    {
      value
    }
  }

  /** The outcome of a `void` function that may throw. */
  datatype Outcome = Pass | Fail(error: Error)
}
