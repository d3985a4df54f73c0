/** The optional value a detector result uses where a field may be absent. */
module Wrappers {

  /** A value that may be missing (a nil pointer in the source). */
  datatype Option<+T> = None | Some(value: T)
}
