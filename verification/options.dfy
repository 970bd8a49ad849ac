/** A value that may be absent: a JSON property that is missing, or a
    request that was never sent. */
module Options {
  datatype Option<+T> = None | Some(value: T)
}
