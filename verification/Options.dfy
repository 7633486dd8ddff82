/** The option type shared by the model: a value the source may leave undefined or null. */
module Options {
  datatype Option<+T> = None | Some(value: T)
}
