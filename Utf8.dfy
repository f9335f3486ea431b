/** Character encodings the source uses: `toByteArray(Charsets.UTF_8)`,
    `String(bytes, UTF_8)` and `toString(Charsets.US_ASCII)`. */
module Utf8 {
  import opened Bytes

  /** U+FFFD, the character a decoder substitutes for malformed input. */
  const Replacement: char := '\U{FFFD}'

  /** The UTF-8 form of one scalar value (section 3.9 of the Unicode Standard). */
  function EncodeChar(c: char): (bs: seq<Byte>)
    ensures 1 <= |bs| <= 4
    ensures |bs| == 1 <==> c as int < 0x80
    ensures |bs| == 1 ==> bs[0] == c as int
  {
    var cp := c as int;
    if cp < 0x80 then [cp]
    else if cp < 0x800 then
      [0xC0 + cp / 0x40, 0x80 + cp % 0x40]
    else if cp < 0x10000 then
      [0xE0 + cp / 0x40 / 0x40, 0x80 + cp / 0x40 % 0x40, 0x80 + cp % 0x40]
    else
      [0xF0 + cp / 0x40 / 0x40 / 0x40, 0x80 + cp / 0x40 / 0x40 % 0x40,
       0x80 + cp / 0x40 % 0x40, 0x80 + cp % 0x40]
  }

  /** `String.toByteArray(Charsets.UTF_8)`. */
  function Encode(s: string): (bs: seq<Byte>)
    ensures |bs| >= |s|
  {
    if s == [] then [] else EncodeChar(s[0]) + Encode(s[1..])
  }

  lemma {:induction false} EncodeAppend(a: string, b: string)
    ensures Encode(a + b) == Encode(a) + Encode(b)
  {
    if a == [] {
      assert a + b == b;
    } else {
      var e := EncodeChar(a[0]);
      assert (a + b)[0] == a[0];
      assert (a + b)[1..] == a[1..] + b;
      assert Encode(a) == e + Encode(a[1..]);
      EncodeAppend(a[1..], b);
      assert Encode(a + b) == e + (Encode(a[1..]) + Encode(b));
      assert e + (Encode(a[1..]) + Encode(b)) == (e + Encode(a[1..])) + Encode(b);
    }
  }

  predicate IsAscii(s: string) {
    forall i :: 0 <= i < |s| ==> s[i] as int < 0x80
  }

  /** An ASCII string encodes to one byte per character, the character's code. */
  lemma {:induction false} EncodeAscii(s: string)
    requires IsAscii(s)
    ensures |Encode(s)| == |s|
    ensures forall i :: 0 <= i < |s| ==> Encode(s)[i] == s[i] as int
  {
    if s != [] {
      EncodeAscii(s[1..]);
    }
  }

  /** The US-ASCII reading of an encoded ASCII string gives the string back. */
  lemma DecodeAsciiOfEncoded(s: string)
    requires IsAscii(s)
    ensures DecodeAscii(Encode(s)) == s
  {
    EncodeAscii(s);
  }

  predicate IsContinuation(b: Byte) {
    0x80 <= b < 0xC0
  }

  /** The range Table 3-7 of the Unicode Standard allows for the second byte
      after a lead byte of a three- or four-byte sequence. */
  function SecondLow(lead: Byte): Byte {
    if lead == 0xE0 then 0xA0 else if lead == 0xF0 then 0x90 else 0x80
  }

  function SecondHigh(lead: Byte): Byte {
    if lead == 0xED then 0x9F else if lead == 0xF4 then 0x8F else 0xBF
  }

  /** The scalar value of a well-formed two-byte sequence. */
  function Scalar2(b0: Byte, b1: Byte): char
    requires 0xC2 <= b0 <= 0xDF && IsContinuation(b1)
  {
    ((b0 as int - 0xC0) * 0x40 + (b1 as int - 0x80)) as char
  }

  /** The scalar value of a well-formed three-byte sequence. */
  function Scalar3(b0: Byte, b1: Byte, b2: Byte): char
    requires 0xE0 <= b0 <= 0xEF && SecondLow(b0) <= b1 <= SecondHigh(b0) && IsContinuation(b2)
  {
    ((b0 as int - 0xE0) * 0x1000 + (b1 as int - 0x80) * 0x40 + (b2 as int - 0x80)) as char
  }

  /** The scalar value of a well-formed four-byte sequence. */
  function Scalar4(b0: Byte, b1: Byte, b2: Byte, b3: Byte): char
    requires 0xF0 <= b0 <= 0xF4 && SecondLow(b0) <= b1 <= SecondHigh(b0)
    requires IsContinuation(b2) && IsContinuation(b3)
  {
    ((b0 as int - 0xF0) * 0x40000 + (b1 as int - 0x80) * 0x1000
      + (b2 as int - 0x80) * 0x40 + (b3 as int - 0x80)) as char
  }

  /** Decodes the character at the front of `bs` and says how many bytes it
      used. A malformed sequence yields one U+FFFD for its maximal valid
      prefix ("substitution of maximal subparts", section 3.9). */
  function DecodeFront(bs: seq<Byte>): (r: (char, nat))
    requires |bs| > 0
    ensures 1 <= r.1 <= |bs|
    ensures bs[0] < 0x80 ==> r == (bs[0] as char, 1)
  {
    var b0 := bs[0];
    if b0 < 0x80 then (b0 as char, 1)
    else if 0xC2 <= b0 <= 0xDF then
      if |bs| >= 2 && IsContinuation(bs[1]) then (Scalar2(b0, bs[1]), 2)
      else (Replacement, 1)
    else if 0xE0 <= b0 <= 0xEF then
      if |bs| >= 2 && SecondLow(b0) <= bs[1] <= SecondHigh(b0) then
        if |bs| >= 3 && IsContinuation(bs[2]) then (Scalar3(b0, bs[1], bs[2]), 3)
        else (Replacement, 2)
      else (Replacement, 1)
    else if 0xF0 <= b0 <= 0xF4 then
      if |bs| >= 2 && SecondLow(b0) <= bs[1] <= SecondHigh(b0) then
        if |bs| >= 3 && IsContinuation(bs[2]) then
          if |bs| >= 4 && IsContinuation(bs[3]) then (Scalar4(b0, bs[1], bs[2], bs[3]), 4)
          else (Replacement, 3)
        else (Replacement, 2)
      else (Replacement, 1)
    else (Replacement, 1)
  }

  /** `String(bytes, Charsets.UTF_8)`. */
  function Decode(bs: seq<Byte>): (s: string)
    ensures |s| <= |bs|
    decreases |bs|
  {
    if bs == [] then []
    else
      var (c, n) := DecodeFront(bs);
      [c] + Decode(bs[n..])
  }

  /** The lead byte of an encoded character tells the decoder its length,
      and the decoder recovers the character. */
  lemma DecodeFrontOfEncoded(c: char, rest: seq<Byte>)
    ensures DecodeFront(EncodeChar(c) + rest) == (c, |EncodeChar(c)|)
  {
    var cp := c as int;
    if cp < 0x80 {
    } else if cp < 0x800 {
      DecodeFrontOfTwo(c, rest);
    } else if cp < 0x10000 {
      DecodeFrontOfThree(c, rest);
    } else {
      DecodeFrontOfFour(c, rest);
    }
  }

  lemma DecodeFrontOfTwo(c: char, rest: seq<Byte>)
    requires 0x80 <= c as int < 0x800
    ensures DecodeFront(EncodeChar(c) + rest) == (c, 2)
  {
    var cp := c as int;
    var bs := EncodeChar(c) + rest;
    var q1, r1 := cp / 0x40, cp % 0x40;
    assert cp == 0x40 * q1 + r1;
    assert bs[0] == 0xC0 + q1 && bs[1] == 0x80 + r1;
  }

  lemma DecodeFrontOfThree(c: char, rest: seq<Byte>)
    requires 0x800 <= c as int < 0x10000
    ensures DecodeFront(EncodeChar(c) + rest) == (c, 3)
  {
    var cp := c as int;
    var bs := EncodeChar(c) + rest;
    var q1, r1 := cp / 0x40, cp % 0x40;
    assert cp == 0x40 * q1 + r1;
    var q2, r2 := q1 / 0x40, q1 % 0x40;
    assert q1 == 0x40 * q2 + r2;
    assert bs[0] == 0xE0 + q2 && bs[1] == 0x80 + r2 && bs[2] == 0x80 + r1;
    assert (bs[0] as int - 0xE0) * 0x1000 + (bs[1] as int - 0x80) * 0x40 + (bs[2] as int - 0x80) == cp;
  }

  lemma DecodeFrontOfFour(c: char, rest: seq<Byte>)
    requires 0x10000 <= c as int
    ensures DecodeFront(EncodeChar(c) + rest) == (c, 4)
  {
    var cp := c as int;
    var bs := EncodeChar(c) + rest;
    var q1, r1 := cp / 0x40, cp % 0x40;
    assert cp == 0x40 * q1 + r1;
    var q2, r2 := q1 / 0x40, q1 % 0x40;
    assert q1 == 0x40 * q2 + r2;
    var q3, r3 := q2 / 0x40, q2 % 0x40;
    assert q2 == 0x40 * q3 + r3;
    assert bs[0] == 0xF0 + q3 && bs[1] == 0x80 + r3 && bs[2] == 0x80 + r2 && bs[3] == 0x80 + r1;
    assert (bs[0] as int - 0xF0) * 0x40000 + (bs[1] as int - 0x80) * 0x1000
      + (bs[2] as int - 0x80) * 0x40 + (bs[3] as int - 0x80) == cp;
  }

  /** Decoding undoes encoding, for every string. */
  lemma {:induction false} DecodeEncode(s: string)
    ensures Decode(Encode(s)) == s
  {
    if s != [] {
      var e := EncodeChar(s[0]);
      var rest := Encode(s[1..]);
      DecodeFrontOfEncoded(s[0], rest);
      assert (e + rest)[|e|..] == rest;
      DecodeEncode(s[1..]);
    }
  }

  /** Encoding is injective: distinct strings have distinct UTF-8 forms. */
  lemma EncodeInjective(a: string, b: string)
    requires Encode(a) == Encode(b)
    ensures a == b
  {
    DecodeEncode(a);
    DecodeEncode(b);
  }

  /** `ByteArray.toString(Charsets.US_ASCII)`: one character per byte, U+FFFD
      for every byte outside 0..127. */
  function AsciiChar(b: Byte): (c: char)
    ensures b < 0x80 ==> c as int == b
    ensures b >= 0x80 ==> c == Replacement
  {
    if b < 0x80 then b as char else Replacement
  }

  function DecodeAscii(bs: seq<Byte>): (s: string)
    ensures |s| == |bs|
    ensures forall i :: 0 <= i < |bs| ==> s[i] == AsciiChar(bs[i])
  {
    seq(|bs|, i requires 0 <= i < |bs| => AsciiChar(bs[i]))
  }
}
