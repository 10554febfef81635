/** A value that may be missing: a null pointer or a lookup that fails. */
module Options {
  datatype Option<T> = None | Some(value: T)
}
