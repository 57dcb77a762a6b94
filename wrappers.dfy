/** The optional value used wherever the source can come back with nothing:
    a Kotlin `null`, or an operation that throws instead of answering. */
module Wrappers {
  datatype Option<+T> = None | Some(value: T)
}
