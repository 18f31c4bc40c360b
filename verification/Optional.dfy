/** A value that may be absent: a null pointer, a NULL column, a lookup without a result. */
module Optional {
  datatype Option<+T> = None | Some(value: T)
}
