/** The optional value used where the source returns nil, null or undefined. */
module Options {
  datatype Option<+T> = None | Some(value: T)
}
