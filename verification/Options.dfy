/** A value that may be missing: a null pointer, or an operation that does not come back. */
module Options {
  datatype Option<T> = None | Some(value: T)
}
