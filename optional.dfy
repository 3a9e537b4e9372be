/** A value that may be absent: the result of a decoder that can reject its input. */
module Optional {
  datatype Option<+T> = None | Some(value: T)
}
