/** Kotlin's nullable types (`T?`) as an explicit optional value. */
module Options {
  datatype Option<+T> = None | Some(value: T)
}
