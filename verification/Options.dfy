/** A value or nothing: Go's nil pointers, comma-ok lookups and error returns. */
module Options {
  datatype Option<+T> = None | Some(value: T)
}
