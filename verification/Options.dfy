/** The optional value used wherever the program returns `None` or a missing key. */
module Options {
  datatype Option<+T> = None | Some(value: T)
}
