/** The optional values the pipeline passes around (a nullable column, a missing field). */
module Options {
  datatype Option<+T> = None | Some(value: T)
}
