/**
 The exceptions the library raises or lets escape, and the failure-compatible
 `Result` and `Option` types every fallible operation of the model returns.
 A Python exception becomes an `Err`; the message text is kept only where the
 source builds one that carries information (the offending name or key).
 */
module Errors {

  datatype Error =
    | AssertionError(msg: string)        // a failed `assert` statement
    | KeyError(key: string)              // `d[k]` with `k` missing
    | TypeError(msg: string)             // wrong operand type, or not subscriptable / iterable
    | AttributeError(msg: string)        // attribute missing on the value
    | ValueError(msg: string)            // `int(...)` of a non-numeral, unknown selector operator
    | KubernetesError(msg: string)       // the library's own validation error
    | ObjectDoesNotExist                 // `exists(ensure=True)` on a missing object
    | HTTPError(status: int)             // `raise_for_status` on a 4xx or 5xx response
    | ConfigError(msg: string)           // the plain `Exception` the configuration raises

  /** Success carrying a value, or the exception that escaped. */
  datatype Result<+T> = Ok(value: T) | Err(error: Error) {

    predicate IsFailure() {
      Err?
    }

    function PropagateFailure<U>(): Result<U>
      requires Err?
    {
      Err(error)
    }

    function Extract(): T
      requires Ok?
    {
      value
    }
  }

  /** Python's `None` next to a present value. */
  datatype Option<+T> = None | Some(value: T)
}
