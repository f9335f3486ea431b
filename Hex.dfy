/** Hexadecimal digits and the `%02X` format the source uses for bytes. */
module Hex {
  import opened Bytes
  import opened Fallible

  type Nibble = n: int | 0 <= n < 0x10

  predicate IsUpperHexDigit(c: char) {
    ('0' <= c <= '9') || ('A' <= c <= 'F')
  }

  predicate IsLowerHexDigit(c: char) {
    ('0' <= c <= '9') || ('a' <= c <= 'f')
  }

  /** The value of a hexadecimal digit of either case. */
  function DigitValue(c: char): (v: Option<Nibble>)
    ensures v.Some? <==> IsUpperHexDigit(c) || IsLowerHexDigit(c)
  {
    if '0' <= c <= '9' then Some(c as int - '0' as int)
    else if 'A' <= c <= 'F' then Some(c as int - 'A' as int + 10)
    else if 'a' <= c <= 'f' then Some(c as int - 'a' as int + 10)
    else None
  }

  function UpperDigit(n: Nibble): (c: char)
    ensures IsUpperHexDigit(c) && DigitValue(c) == Some(n)
  {
    if n < 10 then ('0' as int + n) as char else ('A' as int + n - 10) as char
  }

  function LowerDigit(n: Nibble): (c: char)
    ensures IsLowerHexDigit(c) && DigitValue(c) == Some(n)
  {
    if n < 10 then ('0' as int + n) as char else ('a' as int + n - 10) as char
  }

  /** The byte that two hexadecimal digits spell, high digit first. */
  function PairValue(hi: char, lo: char): Option<Byte> {
    match (DigitValue(hi), DigitValue(lo))
    case (Some(h), Some(l)) => Some(0x10 * h as int + l)
    case _ => None
  }

  /** `String.format("%02X", b)`: two upper-case digits of the unsigned value. */
  function Format02X(b: Byte): (s: string)
    ensures |s| == 2 && IsUpperHexDigit(s[0]) && IsUpperHexDigit(s[1])
    ensures PairValue(s[0], s[1]) == Some(b)
  {
    [UpperDigit(b / 0x10), UpperDigit(b % 0x10)]
  }

  /** `joinToString("") { String.format("%02X", it) }`. */
  function FormatHex(bytes: seq<Byte>): (s: string)
    ensures |s| == 2 * |bytes|
    ensures forall k :: 0 <= k < |s| ==> IsUpperHexDigit(s[k])
    ensures forall i :: 0 <= i < |bytes| ==> PairValue(s[2 * i], s[2 * i + 1]) == Some(bytes[i])
  {
    if bytes == [] then ""
    else
      var rest := FormatHex(bytes[1..]);
      assert forall i :: 1 <= i < |bytes| ==> bytes[i] == bytes[1..][i - 1];
      Format02X(bytes[0]) + rest
  }
}
