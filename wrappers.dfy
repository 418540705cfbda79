/** Small result wrappers shared by the other modules. */
module Wrappers {

  datatype Option<T> = None | Some(value: T)

  /** The result of a check that either passes or names the constraint it violates. */
  datatype Outcome<E> = Pass | Fail(error: E)
}
