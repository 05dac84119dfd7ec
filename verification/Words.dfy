/** Go's fixed-width integers. Arithmetic on them wraps, so every operation that can leave the
    range is written out. */
module Words {

  const TWO_64: int := 0x1_0000_0000_0000_0000
  const TWO_63: int := 0x8000_0000_0000_0000

  type byte = b: int | 0 <= b < 256
  type uint64 = x: int | 0 <= x < TWO_64
  type int64 = x: int | -TWO_63 <= x < TWO_63

  /** A wall-clock reading. `time.Now()` is never the zero time, so 0 is kept for `time.Time{}`. */
  type Instant = t: int | 0 < t witness 1

  function WrapU64(x: int): uint64 {
    x % TWO_64
  }

  function WrapI64(x: int): int64 {
    (x + TWO_63) % TWO_64 - TWO_63
  }
}
