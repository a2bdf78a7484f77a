/** A value that may be absent: a session key not yet set, an empty list's
    latest entry, a label that does not parse. */
module Options {
  datatype Option<+T> = None | Some(value: T)
}
