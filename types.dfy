/** Conversion of the driver's zero-terminated `i8` text buffers into Rust
    strings (`src/types.rs`). */
module Types {
  import opened Ffi
  import opened Utf8

  /** A Rust `String`: its bytes, which are well-formed UTF-8. */
  type RustString = s: seq<u8> | ValidUtf8(s)

  /** The index of the first zero entry of `buffer`, or its length when it has
      none: the point where `take_while(|&e| e != 0)` stops. */
  function FirstNul(buffer: seq<i8>): (k: nat)
    ensures k <= |buffer|
    ensures forall i :: 0 <= i < k ==> buffer[i] != 0
    ensures k < |buffer| ==> buffer[k] == 0
  {
    if buffer == [] || buffer[0] == 0 then 0 else 1 + FirstNul(buffer[1..])
  }

  /** The entries before the first zero, each reinterpreted as a `u8`. */
  function NulPrefix(buffer: seq<i8>): (bytes: seq<u8>)
    ensures |bytes| == FirstNul(buffer)
    ensures forall i :: 0 <= i < |bytes| ==> bytes[i] == AsU8(buffer[i])
    ensures 0 !in bytes
  {
    seq(FirstNul(buffer), i requires 0 <= i < FirstNul(buffer) => AsU8(buffer[i]))
  }

  /** `buffer_to_string` does not panic: the prefix before the first zero is
      well-formed UTF-8. */
  predicate Decodable(buffer: seq<i8>) {
    ValidUtf8(NulPrefix(buffer))
  }

  /** `buffer_to_string`: the text before the first zero entry. It panics
      exactly when that text is not UTF-8, which is its precondition here. */
  function BufferToString(buffer: seq<i8>): (s: RustString)
    requires Decodable(buffer)
    ensures |s| <= |buffer|
    ensures 0 !in s
    ensures forall i :: 0 <= i < |s| ==> s[i] == AsU8(buffer[i])
    ensures |s| < |buffer| ==> buffer[|s|] == 0
  {
    NulPrefix(buffer)
  }

  /** A buffer with no zero entry converts in full. */
  lemma UnterminatedConvertsInFull(buffer: seq<i8>)
    requires 0 !in buffer && Decodable(buffer)
    ensures |BufferToString(buffer)| == |buffer|
  {
  }

  /** `buffer` has its first zero at `k` (or none, when `k == |buffer|`). */
  lemma FirstNulAt(buffer: seq<i8>, k: nat)
    requires k <= |buffer|
    requires forall i :: 0 <= i < k ==> buffer[i] != 0
    requires k < |buffer| ==> buffer[k] == 0
    ensures FirstNul(buffer) == k
  {
  }

  /** What follows the first zero never affects the result: a buffer whose
      first zero comes after the entries `head` converts as `head` alone,
      whatever `rest` holds. */
  lemma RestAfterNulIgnored(head: seq<i8>, rest: seq<i8>)
    requires 0 !in head
    ensures NulPrefix(head + [0] + rest) == NulPrefix(head)
  {
    var buffer := head + [0] + rest;
    FirstNulAt(head, |head|);
    FirstNulAt(buffer, |head|);
    assert forall i :: 0 <= i < |head| ==> buffer[i] == head[i];
  }

  /** A buffer of ASCII entries never makes the conversion panic. */
  lemma AsciiDecodable(buffer: seq<i8>)
    requires forall i :: 0 <= i < |buffer| ==> buffer[i] >= 0
    ensures Decodable(buffer)
  {
    AsciiIsValid(NulPrefix(buffer));
  }

  /** The bytes of "Device iden", the text of the unit tests. */
  const DEVICE_IDEN: seq<u8> := [68, 101, 118, 105, 99, 101, 32, 105, 100, 101, 110]

  /** A buffer of ASCII text without a terminator converts to that text. */
  lemma AsciiUnterminated(buffer: seq<i8>)
    requires forall i :: 0 <= i < |buffer| ==> buffer[i] > 0
    ensures Decodable(buffer) && BufferToString(buffer) == buffer
  {
    FirstNulAt(buffer, |buffer|);
    AsciiDecodable(buffer);
  }

  /** Unit test of `buffer_to_string`: an unterminated buffer converts in full. */
  lemma DeviceIdenUnterminated(buffer: seq<i8>)
    requires buffer == DEVICE_IDEN
    ensures Decodable(buffer) && BufferToString(buffer) == DEVICE_IDEN
  {
    AsciiUnterminated(buffer);
  }

  /** Unit test of `buffer_to_string`: the trailing zeros are dropped. */
  lemma DeviceIdenWithTrailingZeros(buffer: seq<i8>)
    requires buffer == DEVICE_IDEN + [0, 0, 0]
    ensures Decodable(buffer) && BufferToString(buffer) == DEVICE_IDEN
  {
    assert buffer == DEVICE_IDEN + [0] + [0, 0];
    RestAfterNulIgnored(DEVICE_IDEN, [0, 0]);
    DeviceIdenUnterminated(DEVICE_IDEN);
  }
}
