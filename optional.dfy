/** A value that may be absent: an unset cookie, an unknown status label, a state key with no string value. */
module Optional {
  datatype Option<+T> = None | Some(value: T)
}
