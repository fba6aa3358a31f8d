/** The usual optional value, used where the source returns a nil pointer or an error. */
module Options {
  datatype Option<+T> = None | Some(value: T)
}
