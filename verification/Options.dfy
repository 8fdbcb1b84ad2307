/** The one optional-value type the models share. */
module Options {
  datatype Option<+T> = None | Some(value: T)
}
