/** The optional value used wherever the source has a pointer that may be null. */
module Option {
  datatype Option<+T> = None | Some(value: T)
}
