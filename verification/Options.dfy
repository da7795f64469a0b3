/** A value that may be absent: a nil pointer, a missing key, an object that was not found. */
module Options {
  datatype Option<+T> = None | Some(value: T)
}
