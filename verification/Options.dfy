module Options {
  /** A value that may be missing: an unset field, a resource that is not found. */
  datatype Option<+T> = None | Some(value: T)
}
