/** A value that may be missing: a map lookup, a file that may not exist. */
module Options {
  datatype Option<+T> = None | Some(value: T)
}
