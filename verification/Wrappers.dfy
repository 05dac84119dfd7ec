/** What the rest of the project uses for Go's nil pointers, and a way to compare large records. */
module Wrappers {

  datatype Option<+T> = None | Some(value: T)

  /** Equality of whole values, for large records that need not be compared field by field. */
  predicate Same<T(==)>(a: T, b: T) {
    a == b
  }
}
