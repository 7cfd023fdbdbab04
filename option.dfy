/** A value that may be absent: `null` in the source. */
module Options {
  datatype Option<T> = None | Some(value: T)
}
