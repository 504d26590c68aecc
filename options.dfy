/** A value that may be absent: an optional prop or field of the content record. */
module Options {

  datatype Option<+T> = None | Some(value: T)
}
