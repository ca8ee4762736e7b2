/** An optional value: a JavaScript field that may be undefined or null. */
module Optional {
  datatype Option<+T> = None | Some(value: T)
}
