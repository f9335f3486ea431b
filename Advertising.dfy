/** The platform types the packet builders fill in: `ParcelUuid` and the
    fields of `AdvertiseData` that they set. */
module Advertising {
  import opened Bytes
  import opened Fallible
  import opened Hex
  import opened Text

  /** A 128-bit UUID as its 32 hexadecimal digits, most significant first. */
  type UuidDigits = s: seq<Nibble> | |s| == 32 witness seq(32, _ => 0)

  datatype Uuid = Uuid(digits: UuidDigits)

  /** Where the dashes stand in the 8-4-4-4-12 string form (section 3 of RFC 4122). */
  predicate IsDashPosition(i: int) {
    i == 8 || i == 13 || i == 18 || i == 23
  }

  /** The position in the string form of hex digit `k`. */
  function DigitPosition(k: int): (p: int)
    requires 0 <= k < 32
    ensures 0 <= p < 36 && !IsDashPosition(p) && DigitIndex(p) == k
  {
    if k < 8 then k else if k < 12 then k + 1 else if k < 16 then k + 2
    else if k < 20 then k + 3 else k + 4
  }

  /** The hex digit that position `p` of the string form holds. */
  function DigitIndex(p: int): (k: int)
    requires 0 <= p < 36 && !IsDashPosition(p)
    ensures 0 <= k < 32
  {
    if p < 8 then p else if p < 13 then p - 1 else if p < 18 then p - 2
    else if p < 23 then p - 3 else p - 4
  }

  /** Text that `UUID.fromString` reads in its canonical form. */
  predicate IsUuidText(s: string) {
    && |s| == 36
    && (forall i :: 0 <= i < 36 && IsDashPosition(i) ==> s[i] == '-')
    && (forall i :: 0 <= i < 36 && !IsDashPosition(i) ==> DigitValue(s[i]).Some?)
  }

  /** `ParcelUuid.fromString`; `None` where the platform throws. */
  function ParseUuid(s: string): (r: Option<Uuid>)
    ensures r.Some? <==> IsUuidText(s)
    ensures r.Some? ==> forall k :: 0 <= k < 32 ==> DigitValue(s[DigitPosition(k)]) == Some(r.value.digits[k])
  {
    if IsUuidText(s) then
      Some(Uuid(seq(32, k requires 0 <= k < 32 => DigitValue(s[DigitPosition(k)]).value)))
    else None
  }

  /** `UUID.toString()`: the 8-4-4-4-12 form in lower case. */
  function UuidToString(u: Uuid): (s: string)
    ensures |s| == 36
    ensures forall i :: 0 <= i < 36 && IsDashPosition(i) ==> s[i] == '-'
    ensures forall i :: 0 <= i < 36 && !IsDashPosition(i) ==> IsLowerHexDigit(s[i])
  {
    seq(36, i requires 0 <= i < 36 =>
      if IsDashPosition(i) then '-' else LowerDigit(u.digits[DigitIndex(i)]))
  }

  /** Parsing the string form gives the UUID back. */
  lemma ParseUuidToString(u: Uuid)
    ensures ParseUuid(UuidToString(u)) == Some(u)
  {
    var s := UuidToString(u);
    assert IsUuidText(s);
    var v := ParseUuid(s).value;
    forall k | 0 <= k < 32 ensures v.digits[k] == u.digits[k] {
      assert DigitValue(s[DigitPosition(k)]) == Some(u.digits[k]);
    }
    assert v.digits == u.digits;
  }

  /** The platform prints back any UUID text it accepted, in lower case. */
  lemma UuidToStringOfParsed(s: string)
    requires IsUuidText(s)
    ensures UuidToString(ParseUuid(s).value) == ToLowerAscii(s)
  {
    var t := UuidToString(ParseUuid(s).value);
    forall i | 0 <= i < 36 ensures t[i] == LowerAscii(s[i]) {
      if !IsDashPosition(i) {
        assert DigitPosition(DigitIndex(i)) == i;
      }
    }
  }

  /** The fields of Android's `AdvertiseData` the builders set: the service
      UUID list, the service-data map as its entries in iteration order, and
      the tx-power and device-name flags. */
  datatype AdvertiseData = AdvertiseData(
    serviceUuids: seq<Uuid>,
    serviceData: seq<(Uuid, seq<Byte>)>,
    includeTxPowerLevel: bool,
    includeDeviceName: bool)

  /** `AdvertiseData.Builder().setIncludeDeviceName(true).build()`, the scan
      response both builders send. */
  const DeviceNameOnly := AdvertiseData([], [], false, true)

  /** The last group of the Bluetooth Base UUID (volume 3, part B, section
      2.5.1 of the Bluetooth Core Specification). */
  const BaseUuidTail := "00805F9B34FB"

  /** The service the DATA layout advertises its payload under, the 16-bit
      UUID 0xFE10 in the Bluetooth Base UUID, as the source spells it. The
      text is written in three pieces so that proofs about it stay small. */
  const DataServiceUuidText := "0000FE10" + "-0000-1000-8000-" + "00805F9B34FB"

  /** How `UUID.toString()` prints that service UUID. */
  const DataServiceUuidString := "0000fe10" + "-0000-1000-8000-" + "00805f9b34fb"

  lemma DataServiceUuidIsValid()
    ensures IsUuidText(DataServiceUuidText)
  {
  }

  lemma DataServiceUuidRendering()
    ensures ToLowerAscii(DataServiceUuidText) == DataServiceUuidString
  {
    ToLowerAsciiAppend("0000FE10", "-0000-1000-8000-");
    ToLowerAsciiAppend("0000FE10" + "-0000-1000-8000-", "00805F9B34FB");
    assert ToLowerAscii("0000FE10") == "0000fe10";
    assert ToLowerAscii("-0000-1000-8000-") == "-0000-1000-8000-";
    assert ToLowerAscii("00805F9B34FB") == "00805f9b34fb";
  }

  /** `ParcelUuid.fromString(DataServiceUuidText)`, printed back in lower case. */
  function DataServiceUuid(): (u: Uuid)
    ensures UuidToString(u) == DataServiceUuidString
  {
    DataServiceUuidIsValid();
    DataServiceUuidRendering();
    UuidToStringOfParsed(DataServiceUuidText);
    ParseUuid(DataServiceUuidText).value
  }
}
