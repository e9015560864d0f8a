/** An optional value, for a JavaScript value that may be absent or `null`. */
module Optional {
  datatype Option<+T> = None | Some(value: T)
}
