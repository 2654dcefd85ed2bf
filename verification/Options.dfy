/** The usual optional value: a nullable column or a missing row. */
module Options {
  datatype Option<+T> = None | Some(value: T)
}
