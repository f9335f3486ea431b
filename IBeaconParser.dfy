/** Decoding of iBeacon frames carried in manufacturer-specific advertisement
    data (the AD type of section 1.4, part A of the Bluetooth Core
    Specification Supplement): `0x02 0x15`, a 16-byte identity block,
    big-endian major and minor, and a signed tx power. */
module IBeaconParser {
  import opened Bytes
  import opened Fallible
  import opened Text
  import opened Hex
  import Utf8

  datatype IBeaconFrame = IBeaconFrame(
    companyId: int,
    uuid: string,         // the 16 identity bytes as 32 upper-case hex digits
    orderNumber: string,  // identity characters 0..11, trailing whitespace removed
    phoneLast4: string,   // identity characters 12..15
    major: int,
    minor: int,
    txPower: int)

  /** Bytes a frame needs: two prefix bytes, 16 identity bytes, major, minor, tx power. */
  const FrameLength := 23

  /** `parse(data, companyId)`. The prefix is not checked here. */
  function Parse(data: seq<Byte>, companyId: int := 0): (r: Option<IBeaconFrame>)
    ensures r.None? <==> |data| < FrameLength
    ensures r.Some? ==> r.value.companyId == companyId
  {
    if |data| < FrameLength then None
    else
      var idBytes := data[2..18];
      var idText := Utf8.DecodeAscii(idBytes);
      Some(IBeaconFrame(
        companyId,
        FormatHex(idBytes),
        TrimEnd(idText[..12]),
        idText[12..16],
        BigEndian16(data[18], data[19]),
        BigEndian16(data[20], data[21]),
        ToSigned(data[22])))
  }

  /** The order number is the ASCII reading of bytes 2..13 without its
      trailing whitespace: at most 12 characters, what was cut is whitespace. */
  lemma OrderNumberOfFrame(data: seq<Byte>, companyId: int)
    requires |data| >= FrameLength
    ensures var order := Parse(data, companyId).value.orderNumber;
      var text := Utf8.DecodeAscii(data[2..14]);
      && |order| <= 12
      && order <= text
      && (order == [] || !IsWhitespace(order[|order| - 1]))
      && forall i :: |order| <= i < 12 ==> IsWhitespace(text[i])
  {
    assert Utf8.DecodeAscii(data[2..18])[..12] == Utf8.DecodeAscii(data[2..14]);
  }

  /** The phone suffix is exactly the four characters read from bytes 14..17. */
  lemma PhoneLast4OfFrame(data: seq<Byte>, companyId: int)
    requires |data| >= FrameLength
    ensures var phone := Parse(data, companyId).value.phoneLast4;
      |phone| == 4 && forall i :: 0 <= i < 4 ==> phone[i] == Utf8.AsciiChar(data[14 + i])
  {
  }

  /** Major and minor are big-endian unsigned 16-bit values; tx power is byte 22 read as signed. */
  lemma NumericFieldsOfFrame(data: seq<Byte>, companyId: int)
    requires |data| >= FrameLength
    ensures var f := Parse(data, companyId).value;
      && f.major == data[18] as int * 0x100 + data[19] && 0 <= f.major <= 0xFFFF
      && f.minor == data[20] as int * 0x100 + data[21] && 0 <= f.minor <= 0xFFFF
      && f.txPower == (if data[22] < 0x80 then data[22] else data[22] as int - 0x100)
      && -0x80 <= f.txPower <= 0x7F
  {
  }

  /** The uuid field is the upper-case hex of the 16 identity bytes. */
  lemma UuidOfFrame(data: seq<Byte>, companyId: int)
    requires |data| >= FrameLength
    ensures var u := Parse(data, companyId).value.uuid;
      && |u| == 32
      && (forall k :: 0 <= k < 32 ==> IsUpperHexDigit(u[k]))
      && forall i :: 0 <= i < 16 ==> PairValue(u[2 * i], u[2 * i + 1]) == Some(data[2 + i])
  {
    var idBytes := data[2..18];
    assert forall i :: 0 <= i < 16 ==> idBytes[i] == data[2 + i];
  }

  /** Bytes after index 22 never affect the result. */
  lemma ParseIgnoresTrailingBytes(a: seq<Byte>, b: seq<Byte>, companyId: int)
    requires |a| >= FrameLength && |b| >= FrameLength
    requires a[..FrameLength] == b[..FrameLength]
    ensures Parse(a, companyId) == Parse(b, companyId)
  {
    assert a[2..18] == b[2..18] by {
      assert forall i :: 2 <= i < 18 ==> a[i] == a[..FrameLength][i];
      assert forall i :: 2 <= i < 18 ==> b[i] == b[..FrameLength][i];
    }
    assert a[18] == a[..FrameLength][18] && a[19] == a[..FrameLength][19];
    assert a[20] == a[..FrameLength][20] && a[21] == a[..FrameLength][21];
    assert a[22] == a[..FrameLength][22];
  }

  datatype ManufacturerEntry = ManufacturerEntry(companyId: int, data: seq<Byte>)

  /** The test `parseFrom` applies to each manufacturer entry. */
  predicate IsIBeaconEntry(e: ManufacturerEntry) {
    |e.data| >= FrameLength && e.data[0] == 0x02 && e.data[1] == 0x15
  }

  /** `parseFrom` over the manufacturer-specific data of a scan record, in
      the index order of its `SparseArray` (ascending company ids): the frame
      of the first entry that looks like an iBeacon, tagged with that entry's
      company id. */
  function ParseFrom(entries: seq<ManufacturerEntry>): (r: Option<IBeaconFrame>)
    ensures r.None? <==> forall i :: 0 <= i < |entries| ==> !IsIBeaconEntry(entries[i])
    ensures forall i ::
      && 0 <= i < |entries| && IsIBeaconEntry(entries[i])
      && (forall j :: 0 <= j < i ==> !IsIBeaconEntry(entries[j]))
      ==> r == Parse(entries[i].data, entries[i].companyId)
  {
    if entries == [] then None
    else if IsIBeaconEntry(entries[0]) then Parse(entries[0].data, entries[0].companyId)
    else
      var r := ParseFrom(entries[1..]);
      assert forall i :: 1 <= i < |entries| ==> entries[i] == entries[1..][i - 1];
      r
  }

  /** The order a `SparseArray` keeps its keys in: strictly ascending, one entry per id. */
  predicate AscendingIds(entries: seq<ManufacturerEntry>) {
    forall i, j :: 0 <= i < j < |entries| ==> entries[i].companyId < entries[j].companyId
  }

  /** Over a `SparseArray`, the frame `parseFrom` returns comes from the
      qualifying entry with the smallest company id. */
  lemma ParseFromLowestCompany(entries: seq<ManufacturerEntry>, i: int)
    requires AscendingIds(entries)
    requires 0 <= i < |entries| && IsIBeaconEntry(entries[i])
    requires forall j :: 0 <= j < |entries| && IsIBeaconEntry(entries[j]) ==> entries[i].companyId <= entries[j].companyId
    ensures ParseFrom(entries) == Parse(entries[i].data, entries[i].companyId)
    ensures ParseFrom(entries).value.companyId == entries[i].companyId
  {
    forall j | 0 <= j < i
      ensures !IsIBeaconEntry(entries[j])
    {
      assert entries[j].companyId < entries[i].companyId;
    }
  }

  /** Right-pads an order number with spaces to the 12 characters of the identity block. */
  function PadOrderNumber(order: string): (p: string)
    requires |order| <= 12
    ensures |p| == 12 && p[..|order|] == order
    ensures forall i :: |order| <= i < 12 ==> p[i] == ' '
  {
    order + seq(12 - |order|, _ => ' ')
  }

  /** The manufacturer payload a beacon sends for the given fields: the
      inverse of `Parse`. */
  function IBeaconPayload(orderNumber: string, phoneLast4: string, major: int, minor: int, txPower: int): (p: seq<Byte>)
    requires Utf8.IsAscii(orderNumber) && |orderNumber| <= 12
    requires Utf8.IsAscii(phoneLast4) && |phoneLast4| == 4
    requires 0 <= major <= 0xFFFF && 0 <= minor <= 0xFFFF && -0x80 <= txPower <= 0x7F
    ensures |p| == FrameLength
  {
    var id := PadOrderNumber(orderNumber) + phoneLast4;
    Utf8.EncodeAscii(id);
    [0x02, 0x15] + Utf8.Encode(id)
      + [major / 0x100, major % 0x100, minor / 0x100, minor % 0x100, (txPower + 0x100) % 0x100]
  }

  lemma {:induction false} TrimEndOfPadded(s: string, n: nat)
    requires s == [] || !IsWhitespace(s[|s| - 1])
    ensures TrimEnd(s + seq(n, _ => ' ')) == s
  {
    if n > 0 {
      var t := s + seq(n, _ => ' ');
      assert t[..|t| - 1] == s + seq(n - 1, _ => ' ');
      TrimEndOfPadded(s, n - 1);
    } else {
      assert s + seq(n, _ => ' ') == s;
    }
  }

  /** The identity block of a beacon payload reads back as the order number,
      once its padding is trimmed, followed by the phone suffix. */
  lemma PayloadIdentityText(orderNumber: string, phoneLast4: string, major: int, minor: int, txPower: int)
    requires Utf8.IsAscii(orderNumber) && |orderNumber| <= 12
    requires orderNumber == [] || !IsWhitespace(orderNumber[|orderNumber| - 1])
    requires Utf8.IsAscii(phoneLast4) && |phoneLast4| == 4
    requires 0 <= major <= 0xFFFF && 0 <= minor <= 0xFFFF && -0x80 <= txPower <= 0x7F
    ensures var p := IBeaconPayload(orderNumber, phoneLast4, major, minor, txPower);
      var idText := Utf8.DecodeAscii(p[2..18]);
      TrimEnd(idText[..12]) == orderNumber && idText[12..16] == phoneLast4
  {
    var padded := PadOrderNumber(orderNumber);
    var id := padded + phoneLast4;
    PayloadIdentityBytes(orderNumber, phoneLast4, major, minor, txPower);
    assert id[..12] == padded;
    TrimEndOfPadded(orderNumber, 12 - |orderNumber|);
    assert padded == orderNumber + seq(12 - |orderNumber|, _ => ' ');
  }

  lemma PayloadIdentityBytes(orderNumber: string, phoneLast4: string, major: int, minor: int, txPower: int)
    requires Utf8.IsAscii(orderNumber) && |orderNumber| <= 12
    requires Utf8.IsAscii(phoneLast4) && |phoneLast4| == 4
    requires 0 <= major <= 0xFFFF && 0 <= minor <= 0xFFFF && -0x80 <= txPower <= 0x7F
    ensures var p := IBeaconPayload(orderNumber, phoneLast4, major, minor, txPower);
      Utf8.DecodeAscii(p[2..18]) == PadOrderNumber(orderNumber) + phoneLast4
  {
    var id := PadOrderNumber(orderNumber) + phoneLast4;
    var p := IBeaconPayload(orderNumber, phoneLast4, major, minor, txPower);
    Utf8.EncodeAscii(id);
    assert p[2..18] == Utf8.Encode(id);
    Utf8.DecodeAsciiOfEncoded(id);
  }

  /** The last five bytes of a beacon payload read back as major, minor and tx power. */
  lemma PayloadNumbers(orderNumber: string, phoneLast4: string, major: int, minor: int, txPower: int)
    requires Utf8.IsAscii(orderNumber) && |orderNumber| <= 12
    requires Utf8.IsAscii(phoneLast4) && |phoneLast4| == 4
    requires 0 <= major <= 0xFFFF && 0 <= minor <= 0xFFFF && -0x80 <= txPower <= 0x7F
    ensures var p := IBeaconPayload(orderNumber, phoneLast4, major, minor, txPower);
      && p[0] == 0x02 && p[1] == 0x15
      && BigEndian16(p[18], p[19]) == major
      && BigEndian16(p[20], p[21]) == minor
      && ToSigned(p[22]) == txPower
  {
  }

  /** Parsing a beacon payload gives back the fields it was built from, as
      long as the order number has no trailing whitespace of its own. */
  lemma ParseIBeaconPayload(orderNumber: string, phoneLast4: string, major: int, minor: int, txPower: int, companyId: int)
    requires Utf8.IsAscii(orderNumber) && |orderNumber| <= 12
    requires orderNumber == [] || !IsWhitespace(orderNumber[|orderNumber| - 1])
    requires Utf8.IsAscii(phoneLast4) && |phoneLast4| == 4
    requires 0 <= major <= 0xFFFF && 0 <= minor <= 0xFFFF && -0x80 <= txPower <= 0x7F
    ensures var p := IBeaconPayload(orderNumber, phoneLast4, major, minor, txPower);
      && IsIBeaconEntry(ManufacturerEntry(companyId, p))
      && Parse(p, companyId) == Some(IBeaconFrame(companyId, FormatHex(p[2..18]),
           orderNumber, phoneLast4, major, minor, txPower))
  {
    PayloadIdentityText(orderNumber, phoneLast4, major, minor, txPower);
    PayloadNumbers(orderNumber, phoneLast4, major, minor, txPower);
  }
}
