/** `ByteUtils` of the backup tree: per-byte hex, joined hex and a printable
    ASCII view of bytes. */
module BackupByteUtils {
  import opened Bytes
  import opened Fallible
  import opened Hex
  import opened Text
  import Utf8
  import ByteUtils

  /** `byteToHex`: the two upper-case hex digits of the byte's unsigned value. */
  function ByteToHex(b: Byte): (s: string)
    ensures |s| == 2 && IsUpperHexDigit(s[0]) && IsUpperHexDigit(s[1])
    ensures PairValue(s[0], s[1]) == Some(b)
  {
    Format02X(b)
  }

  /** `bytesToHex`, written as the source writes it: a join over the mapped bytes. */
  function BytesToHex(bytes: seq<Byte>): string {
    Join(" ", seq(|bytes|, i requires 0 <= i < |bytes| => ByteToHex(bytes[i])))
  }

  /** The backup tree renders exactly as the main tree does, so every property
      of `ByteUtils.BytesToHex` holds here too. */
  lemma {:induction false} BytesToHexAgreesWithMainTree(bytes: seq<Byte>)
    ensures BytesToHex(bytes) == ByteUtils.BytesToHex(bytes)
  {
    var parts := seq(|bytes|, i requires 0 <= i < |bytes| => ByteToHex(bytes[i]));
    if |bytes| > 1 {
      assert parts[1..] == seq(|bytes[1..]|, i requires 0 <= i < |bytes[1..]| => ByteToHex(bytes[1..][i]));
      BytesToHexAgreesWithMainTree(bytes[1..]);
    }
  }

  predicate IsPrintableAscii(c: char) {
    ' ' <= c <= '~'
  }

  /** `bytes.map { (it.toInt() and 0xFF).toChar() }.joinToString("")`. */
  function Latin1(bytes: seq<Byte>): string {
    seq(|bytes|, i requires 0 <= i < |bytes| => bytes[i] as char)
  }

  /** `replace(Regex("[^\\x20-\\x7E]"), ".")`. */
  function ReplaceNonPrintable(s: string): string {
    seq(|s|, i requires 0 <= i < |s| => if IsPrintableAscii(s[i]) then s[i] else '.')
  }

  /** `bytesToAsciiSafe`: one character per byte; bytes 0x20..0x7E keep their
      ASCII character and every other byte becomes `.`. */
  function BytesToAsciiSafe(bytes: seq<Byte>): (r: string)
    ensures |r| == |bytes|
    ensures forall i :: 0 <= i < |r| ==> IsPrintableAscii(r[i])
    ensures forall i :: 0 <= i < |bytes| && 0x20 <= bytes[i] <= 0x7E ==> r[i] as int == bytes[i]
    ensures forall i :: 0 <= i < |bytes| && !(0x20 <= bytes[i] <= 0x7E) ==> r[i] == '.'
  {
    ReplaceNonPrintable(Latin1(bytes))
  }

  /** The output is printable ASCII, so rendering its own bytes changes nothing. */
  lemma AsciiSafeIdempotent(bytes: seq<Byte>)
    ensures Utf8.IsAscii(BytesToAsciiSafe(bytes))
    ensures BytesToAsciiSafe(Utf8.Encode(BytesToAsciiSafe(bytes))) == BytesToAsciiSafe(bytes)
  {
    var r := BytesToAsciiSafe(bytes);
    Utf8.EncodeAscii(r);
  }
}
