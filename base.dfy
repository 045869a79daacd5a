/** Failure-carrying wrappers shared by the whole model. A backend call of the
    Recording Service either answers or raises; the adapter's own "not
    implemented" members always raise. */
module Base {

  datatype Option<T> = None | Some(value: T)

  /** Why an operation failed: the backend raised (unreachable, malformed
      answer, missing resource), or the adapter does not support the call. */
  datatype Fault = BackendFault(message: string) | NotImplemented

  /** The value of a call that returns something, or the exception it raised. */
  datatype Result<T> = Success(value: T) | Failure(fault: Fault)

  /** The completion of a call that returns nothing, or the exception it raised. */
  datatype Outcome = Pass | Fail(fault: Fault)
}
