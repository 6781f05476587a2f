/** Failure-carrying result types shared by every module of the model. */
module Wrappers {

  /** A value that may be absent: a null pointer, a missing JSON key, an unset optional. */
  datatype Option<+T> = None | Some(value: T) {
    function GetOr(default: T): T {
      match this
      case Some(v) => v
      case None => default
    }
  }

  /** The outcome of a conversion that may throw; usable with `:-`. */
  datatype Result<+T, +E> = Success(value: T) | Failure(error: E) {
    predicate IsFailure() {
      Failure?
    }

    function PropagateFailure<U>(): Result<U, E>
      requires Failure?
    {
      Failure(error)
    }

    function Extract(): T
      requires Success?
    {
      value
    }
  }
}

/** Fixed-width integers of the C++ side and the conversions the source performs between them. */
module Ints {

  const TWO_8: int := 0x100
  const TWO_32: int := 0x1_0000_0000
  const TWO_64: int := 0x1_0000_0000_0000_0000

  type u8 = n: int | 0 <= n < TWO_8
  type u32 = n: int | 0 <= n < TWO_32
  type u64 = n: int | 0 <= n < TWO_64
  type i32 = n: int | -0x8000_0000 <= n < 0x8000_0000

  const I32_MIN: i32 := -0x8000_0000
  const I32_MAX: i32 := 0x7fff_ffff

  /** `static_cast<std::uint8_t>` of a wider integer: reduction modulo 2^8. */
  function ToU8(n: int): (r: u8)
    ensures 0 <= n < TWO_8 ==> r == n
    ensures (r - n) % TWO_8 == 0
  {
    n % TWO_8
  }

  /** `static_cast<std::uint32_t>` of a wider integer: reduction modulo 2^32. */
  function ToU32(n: int): (r: u32)
    ensures 0 <= n < TWO_32 ==> r == n
    ensures (r - n) % TWO_32 == 0
  {
    n % TWO_32
  }

  /** `static_cast<std::uint64_t>` of a wider integer: reduction modulo 2^64. */
  function ToU64(n: int): (r: u64)
    ensures 0 <= n < TWO_64 ==> r == n
    ensures (r - n) % TWO_64 == 0
  {
    n % TWO_64
  }

  /** `static_cast<int>` of a wider integer: two's-complement wrap-around to 32 bits. */
  function ToI32(n: int): (r: i32)
    ensures I32_MIN <= n <= I32_MAX ==> r == n
    ensures (r - n) % TWO_32 == 0
  {
    var m := (n + 0x8000_0000) % TWO_32;
    m - 0x8000_0000
  }
}
