/** Value types shared by every module: optional values, the results that the
    foreign collaborators (the protobuf codec, the simulator) hand back, raw
    bytes and the 64-bit unsigned integers of the wire formats. */
module Basics {

  datatype Option<+T> = None | Some(value: T) {
    /** `unwrap_or`: the value, or `default` when there is none. */
    function GetOr(default: T): T {
      match this
      case Some(v) => v
      case None => default
    }
  }

  /** The result a foreign library call reports: a value or its error. */
  datatype Result<+T, +E> = Success(value: T) | Failure(error: E)

  type Bytes = seq<bv8>

  const U64_LIMIT: nat := 0x1_0000_0000_0000_0000

  type u64 = n: nat | n < U64_LIMIT
}
