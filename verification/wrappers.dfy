/** Small failure-carrying datatypes shared by the other modules. */
module Wrappers {

  /** A value that may be absent; stands for a Java reference that may be null. */
  datatype Option<+T> = None | Some(value: T)

  /** The completion of a Java call that returns nothing: normally, or by throwing `error`. */
  datatype Outcome<+E> = Pass | Fail(error: E)
}
