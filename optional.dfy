/** A possibly-absent value: stands for the Java references that may be null. */
module Optional {
  datatype Option<+T> = None | Some(value: T)
}
