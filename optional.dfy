/** A value that may be absent: JavaScript's `null`, Python's `None`. */
module Optional {
  datatype Option<+T> = None | Some(value: T)
}
