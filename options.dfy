/** An optional value: what the Java code expresses with `null` or an empty list. */
module Options {
  datatype Option<T> = None | Some(value: T)
}
