/** A value that may be absent: an empty unique pointer, a disarmed timer, a failed match. */
module Options {
  datatype Option<T> = None | Some(value: T)
}
