/** Values that may be absent: an option the caller leaves out of the options
    object, or the centre point of an empty list of positions. */
module Optional {

  datatype Option<T> = None | Some(value: T) {

    /** What is present, falling back to `fallback` when nothing is. */
    function ValueOr(fallback: T): T {
      if Some? then value else fallback
    }
  }
}
