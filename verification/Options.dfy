/** The Some/None type used for the original's null and undefined. */
module Options {
  datatype Option<+T> = None | Some(value: T)
}
