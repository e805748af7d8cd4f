/** The optional value that the models share. */
module Options {
  datatype Option<+T> = None | Some(value: T)
}
