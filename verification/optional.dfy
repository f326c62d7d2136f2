/** The optional value used wherever the source has a nullable field or `undefined`. */
module Optional {
  datatype Option<+T> = None | Some(value: T)
}
