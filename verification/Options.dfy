/** An optional value, used wherever the program has a nullable column or field. */
module Options {
  datatype Option<+T> = None | Some(value: T)
}
