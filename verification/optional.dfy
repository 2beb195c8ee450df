/** A value that may be absent: Python's `None` versus an object. */
module Optional {

  datatype Option<+T> = None | Some(value: T)
}
