/** Shared value types: octets and optional values. */
module Common {

  /** One octet, the element type of Python's bytes and bytearray. */
  type byte = x: int | 0 <= x < 256

  /** A value that may be absent (Python's None). */
  datatype Option<+T> = None | Some(value: T) {

    /** The wrapped value, or `default` when absent (Python's `x or default`). */
    function GetOr(default: T): T {
      match this
      case Some(v) => v
      case None => default
    }
  }
}
