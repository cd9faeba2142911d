/** A value that may be missing: std::optional, and pointers that may be null. */
module Optional {
  datatype Option<+T> = None | Some(value: T)
}
