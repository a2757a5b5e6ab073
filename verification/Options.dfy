/** A value that may be absent, such as a nil pointer or an empty answer. */
module Options {
  datatype Option<+T> = None | Some(value: T)
}
