/** Option and Result, the two failure-carrying shapes the converters need. */
module Wrappers {

  /** A value that may be absent: a missing key, or a JSON `null`. */
  datatype Option<+T> = None | Some(value: T) {

    /** Python's `d.get(key, fallback)`: the stored value if there is one, else the fallback. */
    function ValueOr(fallback: T): (v: T)
      ensures Some? ==> v == value
      ensures None? ==> v == fallback
    {
      if Some? then value else fallback
    }
  }

  /** The outcome of a conversion that can fail on a malformed input. */
  datatype Result<+R, +E> = Success(value: R) | Failure(error: E)
}
