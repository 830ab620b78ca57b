/** A value that may be missing: the program's error returns where the reason does not matter. */
module Options {
  datatype Option<+T> = None | Some(value: T)
}
