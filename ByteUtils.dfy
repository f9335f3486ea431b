/** `ByteUtils` of the main tree: the space-separated hex rendering of bytes. */
module ByteUtils {
  import opened Bytes
  import opened Fallible
  import opened Hex

  /** `bytes.joinToString(" ") { String.format("%02X", it) }`: group `i` holds
      the two digits of byte `i`, and groups are separated by one space. */
  function BytesToHex(bytes: seq<Byte>): (r: string)
    ensures bytes == [] ==> r == ""
    ensures bytes != [] ==> |r| == 3 * |bytes| - 1
    ensures forall k :: 0 <= k < |r| && k % 3 == 2 ==> r[k] == ' '
    ensures forall k :: 0 <= k < |r| && k % 3 < 2 ==> r[k] == Format02X(bytes[k / 3])[k % 3]
  {
    if bytes == [] then ""
    else if |bytes| == 1 then Format02X(bytes[0])
    else
      var rest := BytesToHex(bytes[1..]);
      ShiftByGroup(|rest|);
      Format02X(bytes[0]) + " " + rest
  }

  /** Position `k` of the text after the first group is position `k - 3` of the rest. */
  lemma ShiftByGroup(n: nat)
    ensures forall k :: 3 <= k < 3 + n ==> k / 3 == (k - 3) / 3 + 1 && k % 3 == (k - 3) % 3
  {
    forall k | 3 <= k < 3 + n ensures k / 3 == (k - 3) / 3 + 1 && k % 3 == (k - 3) % 3 {
      var q, r := (k - 3) / 3, (k - 3) % 3;
      assert k == 3 * (q + 1) + r;
    }
  }

  /** Reads text of the form `XX XX .. XX` back into the bytes it spells. */
  function ReadHex(s: string): Option<seq<Byte>>
    decreases |s|
  {
    if s == [] then Some([])
    else if |s| < 2 then None
    else
      match PairValue(s[0], s[1])
      case None => None
      case Some(b) =>
        if |s| == 2 then Some([b])
        else if |s| > 3 && s[2] == ' ' then
          match ReadHex(s[3..])
          case None => None
          case Some(rest) => Some([b] + rest)
        else None
  }

  /** Reading the rendering back recovers the bytes. */
  lemma {:induction false} ReadBytesToHex(bytes: seq<Byte>)
    ensures ReadHex(BytesToHex(bytes)) == Some(bytes)
  {
    if |bytes| > 1 {
      var r := BytesToHex(bytes);
      var rest := BytesToHex(bytes[1..]);
      assert r == Format02X(bytes[0]) + " " + rest;
      assert r[3..] == rest;
      ReadBytesToHex(bytes[1..]);
      assert [bytes[0]] + bytes[1..] == bytes;
    } else if |bytes| == 1 {
      assert BytesToHex(bytes) == Format02X(bytes[0]);
      assert [bytes[0]] == bytes;
    }
  }

  /** Distinct byte arrays render differently. */
  lemma BytesToHexInjective(a: seq<Byte>, b: seq<Byte>)
    requires BytesToHex(a) == BytesToHex(b)
    ensures a == b
  {
    ReadBytesToHex(a);
    ReadBytesToHex(b);
  }
}
