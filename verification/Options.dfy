/** A value that may be absent: Java's null, or a read that would block. */
module Options {
  datatype Option<+T> = None | Some(value: T)
}
