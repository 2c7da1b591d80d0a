/** The absent-or-present value that stands for Java's nullable references. */
module Options {
  datatype Option<+T> = None | Some(value: T)
}
