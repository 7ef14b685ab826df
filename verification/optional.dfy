/** Swift's optional type `T?`. */
module Optional {
  datatype Option<+T> = None | Some(value: T)
}
