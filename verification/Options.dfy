/** The optional value used for absent leaves, missing files and failed parses. */
module Options {
  datatype Option<+T> = None | Some(value: T)
}
