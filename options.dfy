/** The optional value used for the outcome of parsing a number out of text. */
module Options {

  datatype Option<+T> = None | Some(value: T)
}
