/** Small shared value types. */
module Base {

  /** A value that may be absent: a missing store entry, an unparsable price. */
  datatype Option<T> = None | Some(value: T)
}
