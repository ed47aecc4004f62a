/** The optional-value datatype used for every parse that can fail. */
module Options {
  datatype Option<+T> = None | Some(value: T)
}
