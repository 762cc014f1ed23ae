/** What every part of the model shares. */
module Basics {
  datatype Option<+T> = None | Some(value: T)

  type byte = x: int | 0 <= x < 256

  /** `isJpeg` of the hub and the check of the M5Camera's pump: the two markers. */
  predicate IsJpeg(bytes: seq<byte>) {
    && |bytes| >= 4 && bytes[0] == 0xFF && bytes[1] == 0xD8
    && bytes[|bytes| - 2] == 0xFF && bytes[|bytes| - 1] == 0xD9
  }
}
