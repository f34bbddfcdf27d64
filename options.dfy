/** A value that may be absent: JavaScript's `undefined` (and, where the
    source uses `??`, also `null`). */
module Options {
  datatype Option<+T> = None | Some(value: T)
}
