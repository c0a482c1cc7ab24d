/** The usual optional value, used for operations that can fail. */
module Options {
  datatype Option<+T> = None | Some(value: T)
}
