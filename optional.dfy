/** An optional value: stands for the source's `undefined`. */
module Optional {
  datatype Option<+T> = None | Some(value: T)
}
