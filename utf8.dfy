/** Well-formed UTF-8 byte strings, after the grammar of section 4 of RFC 3629:
    the set of byte strings that `String::from_utf8` accepts. */
module Utf8 {
  import opened Ffi

  predicate Tail(b: u8) { 0x80 <= b <= 0xBF }

  /** The length of the UTF8-char that `s` starts with, or 0 when `s` does not
      start with one. */
  function CharWidth(s: seq<u8>): (n: nat)
    ensures n <= |s| && n <= 4
    ensures n == 1 <==> |s| > 0 && s[0] < 0x80
    ensures n > 1 ==> forall i :: 1 <= i < n ==> Tail(s[i])
  {
    if |s| == 0 then 0
    else if s[0] <= 0x7F then 1
    else if 0xC2 <= s[0] <= 0xDF then
      if |s| >= 2 && Tail(s[1]) then 2 else 0
    else if 0xE0 <= s[0] <= 0xEF then
      if |s| < 3 || !Tail(s[2]) then 0
      else if s[0] == 0xE0 then (if 0xA0 <= s[1] <= 0xBF then 3 else 0)
      else if s[0] == 0xED then (if 0x80 <= s[1] <= 0x9F then 3 else 0)
      else if Tail(s[1]) then 3 else 0
    else if 0xF0 <= s[0] <= 0xF4 then
      if |s| < 4 || !Tail(s[2]) || !Tail(s[3]) then 0
      else if s[0] == 0xF0 then (if 0x90 <= s[1] <= 0xBF then 4 else 0)
      else if s[0] == 0xF4 then (if 0x80 <= s[1] <= 0x8F then 4 else 0)
      else if Tail(s[1]) then 4 else 0
    else 0
  }

  /** `s` is a sequence of UTF8-chars (the rule UTF8-octets). */
  predicate ValidUtf8(s: seq<u8>)
    decreases |s|
  {
    s == [] || (CharWidth(s) > 0 && ValidUtf8(s[CharWidth(s)..]))
  }

  /** Every string of ASCII bytes is well-formed UTF-8. */
  lemma {:induction false} AsciiIsValid(s: seq<u8>)
    requires forall i :: 0 <= i < |s| ==> s[i] < 0x80
    ensures ValidUtf8(s)
  {
    if s != [] {
      assert CharWidth(s) == 1;
      AsciiIsValid(s[1..]);
    }
  }

  /** Rejections that section 4 of RFC 3629 requires: an overlong encoding of
      NUL, an encoded surrogate, and a lone continuation byte. */
  lemma RejectsIllFormed()
    ensures !ValidUtf8([0xC0, 0x80])
    ensures !ValidUtf8([0xED, 0xA0, 0x80])
    ensures !ValidUtf8([0x80])
  {
  }
}
