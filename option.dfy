/** An optional value: a field or document that may be absent. */
module Optional {
  datatype Option<+T> = None | Some(value: T)
}
