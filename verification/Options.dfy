/** The optional value used wherever the program holds a pointer that may be null. */
module Options {
  datatype Option<+T> = None | Some(value: T)
}
