/** The C boundary of the vendor driver as the Rust code sees it: fixed-width
    integers, C strings, raw task handles, and the way the driver writes into a
    buffer that the caller has allocated. */
module Ffi {

  const I32_MAX: int := 0x7FFF_FFFF
  const U32_MAX: int := 0xFFFF_FFFF

  /** Rust's fixed-width integers. */
  type i8 = x: int | -0x80 <= x < 0x80
  type u8 = x: int | 0 <= x < 0x100
  type i32 = x: int | -0x8000_0000 <= x < 0x8000_0000
  type u32 = x: int | 0 <= x < 0x1_0000_0000

  /** The contents of a `CString`: a byte string without its terminator, which
      by construction holds no zero byte. */
  type CString = s: seq<u8> | 0 !in s

  datatype Option<+T> = None | Some(value: T) {
    function GetOr(default: T): T {
      match this
      case Some(v) => v
      case None => default
    }
  }

  /** A raw `TaskHandle` pointer: null, or a session the driver handed out. */
  datatype RawHandle = Null | Handle(id: nat)

  /** The buffer pointer passed to a native call: null, or a buffer with room
      for `len` entries. */
  datatype BufferPtr = NullPtr | BufferOf(len: nat)

  /** `e as u8` for an `i8`: the same bit pattern read as unsigned. */
  function AsU8(e: i8): (b: u8)
    ensures b % 0x100 == e % 0x100
    ensures b == 0 <==> e == 0
  {
    if e < 0 then e + 0x100 else e
  }

  /** `v as i32` for a `u32`: the same bit pattern read as signed, so values
      above `i32::MAX` wrap to negative numbers. */
  function U32AsI32(v: u32): (n: i32)
    ensures n % 0x1_0000_0000 == v % 0x1_0000_0000
    ensures v <= I32_MAX ==> n == v
    ensures v > I32_MAX ==> n < 0
  {
    if v <= I32_MAX then v else v - 0x1_0000_0000
  }

  /** `len.try_into().unwrap_or(u32::MAX)` for a `usize` length. */
  function SaturatingU32(len: nat): (n: u32)
    ensures n <= len
    ensures len <= U32_MAX ==> n == len
    ensures len > U32_MAX ==> n == U32_MAX
  {
    if len <= U32_MAX then len else U32_MAX
  }

  /** A zero-initialised buffer, `vec![0; n]`. */
  function Zeros(n: nat): (b: seq<int>)
    ensures |b| == n && forall i :: 0 <= i < n ==> b[i] == 0
  {
    seq(n, _ => 0)
  }

  /** The buffer after the driver has written `written` into it: the driver is
      told the buffer's length, so it writes at most that many entries from the
      start and leaves the rest as it was. */
  function Filled<T>(buffer: seq<T>, written: seq<T>): (r: seq<T>)
    ensures |r| == |buffer|
    ensures forall i :: 0 <= i < |r| ==> r[i] == if i < |written| then written[i] else buffer[i]
  {
    if |written| >= |buffer| then written[..|buffer|] else written + buffer[|written|..]
  }
}
