/** A value that may be missing: a nil reference in Go, or its second "ok" result. */
module Options {
  datatype Option<+T> = None | Some(value: T)
}
