/** Option and Outcome, the two small wrappers the model uses for absent fields and for the
    errors that the module raises as user errors. */
module Wrappers {
  datatype Option<T> = None | Some(value: T)

  /** The outcome of a call that either completes or raises a user error. */
  datatype Outcome<E> = Pass | Fail(error: E)
}
