/** The optional value used for "no observation", a missing sentinel and failed parses. */
module Options {
  datatype Option<+T> = None | Some(value: T)
}
