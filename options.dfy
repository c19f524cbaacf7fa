/** The optional values the view passes around (`Option<T>` / `null` in the source). */
module Options {
  datatype Option<+T> = None | Some(value: T)
}
