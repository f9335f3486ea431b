/** `AdvertisePacketBuilder` of the backup tree: the MINIMAL layout (identity
    in a service UUID), the DATA layout (identity as service data, ASCII or
    packed BCD), the scan response and the raw-hex debug text. */
module BackupPacketBuilder {
  import opened Bytes
  import opened Fallible
  import opened Text
  import opened Hex
  import opened Advertising
  import Utf8
  import BackupByteUtils

  datatype EncodingType = ASCII | BCD

  datatype AdvertiseMode = MINIMAL | DATA

  /** The backup tree's `AdvertiseDataModel`, with its defaults. */
  datatype AdvertiseDataModel = AdvertiseDataModel(
    cardNumber: string,
    phoneLast4: string,
    deviceName: string := "mcandle",
    encoding: EncodingType := ASCII,
    advertiseMode: AdvertiseMode := DATA)

  /** The exceptions the builder lets escape. */
  datatype BuildError =
    | OddLength                  // `require` in `toBcd`
    | NotADigit                  // `digitToInt()` on a non-digit
    | CardTooShort               // `substring` past the end of the card number
    | InvalidUuid(text: string)  // `ParcelUuid.fromString` rejects the text

  /** Packs digit pairs, high nibble first; `num` has even length. */
  function PackPairs(num: string): (r: Result<seq<Byte>, BuildError>)
    requires |num| % 2 == 0
    ensures AllDigits(num) ==> r.Ok? && |r.value| == |num| / 2
    ensures AllDigits(num) ==> forall i :: 0 <= i < |r.value| ==>
      r.value[i] == 0x10 * DigitToInt(num[2 * i]) + DigitToInt(num[2 * i + 1])
    ensures !AllDigits(num) ==> r == Err(NotADigit)
    decreases |num|
  {
    if num == [] then Ok([])
    else if !IsDigit(num[0]) || !IsDigit(num[1]) then Err(NotADigit)
    else
      var tail := num[2..];
      assert forall i :: 2 <= i < |num| ==> num[i] == tail[i - 2];
      match PackPairs(tail)
      case Err(e) => Err(e)
      case Ok(rest) =>
        assert forall i :: 1 <= i < 1 + |rest| ==> 2 * i == 2 * (i - 1) + 2;
        Ok([0x10 * DigitToInt(num[0]) + DigitToInt(num[1])] + rest)
  }

  /** `toBcd`: fails on odd length or a non-digit; byte `i` packs digits `2i` and `2i+1`. */
  function ToBcd(num: string): (r: Result<seq<Byte>, BuildError>)
    ensures |num| % 2 != 0 ==> r == Err(OddLength)
    ensures |num| % 2 == 0 && !AllDigits(num) ==> r == Err(NotADigit)
    ensures |num| % 2 == 0 && AllDigits(num) ==> r.Ok? && |r.value| == |num| / 2
    ensures |num| % 2 == 0 && AllDigits(num) ==> forall i :: 0 <= i < |r.value| ==>
      r.value[i] == 0x10 * DigitToInt(num[2 * i]) + DigitToInt(num[2 * i + 1])
  {
    if |num| % 2 != 0 then Err(OddLength) else PackPairs(num)
  }

  function DecimalChar(d: int): (c: char)
    requires 0 <= d < 10
    ensures IsDigit(c) && DigitToInt(c) == d
  {
    ('0' as int + d) as char
  }

  /** Unpacks packed BCD, high nibble first; fails on a nibble above 9. */
  function UnpackBcd(bytes: seq<Byte>): (r: Option<string>)
    ensures r.Some? ==> |r.value| == 2 * |bytes| && AllDigits(r.value)
  {
    if bytes == [] then Some("")
    else
      var hi, lo := bytes[0] / 0x10, bytes[0] % 0x10;
      if hi > 9 || lo > 9 then None
      else
        match UnpackBcd(bytes[1..])
        case None => None
        case Some(rest) => Some([DecimalChar(hi), DecimalChar(lo)] + rest)
  }

  /** Unpacking the nibbles recovers every even-length digit string. */
  lemma {:induction false} UnpackToBcd(num: string)
    requires |num| % 2 == 0 && AllDigits(num)
    ensures ToBcd(num).Ok? && UnpackBcd(ToBcd(num).value) == Some(num)
  {
    if num != [] {
      var tail := num[2..];
      UnpackToBcd(tail);
      var packed := ToBcd(num).value;
      assert packed[1..] == ToBcd(tail).value;
      var hi, lo := DigitToInt(num[0]), DigitToInt(num[1]);
      assert packed[0] == 0x10 * hi + lo;
      assert packed[0] / 0x10 == hi && packed[0] % 0x10 == lo;
      assert DecimalChar(hi) == num[0] && DecimalChar(lo) == num[1];
      assert [num[0], num[1]] + tail == num;
    }
  }

  /** `makeMinimalUuid`: card groups 8-4-4, the phone suffix, then the Base UUID tail. */
  function MakeMinimalUuid(cardNumber: string, phoneLast4: string): (text: string)
    requires |cardNumber| >= 16
  {
    cardNumber[..8] + "-" + cardNumber[8..12] + "-" + cardNumber[12..16] + "-"
      + phoneLast4 + "-" + BaseUuidTail
  }

  /** Position by position, where the card and phone digits land in the UUID text. */
  lemma MinimalUuidLayout(cardNumber: string, phoneLast4: string)
    requires |cardNumber| >= 16 && |phoneLast4| == 4
    ensures var text := MakeMinimalUuid(cardNumber, phoneLast4);
      && |text| == 36
      && (forall i :: 0 <= i < 36 && IsDashPosition(i) ==> text[i] == '-')
      && (forall i :: 0 <= i < 8 ==> text[i] == cardNumber[i])
      && (forall i :: 9 <= i < 13 ==> text[i] == cardNumber[i - 1])
      && (forall i :: 14 <= i < 18 ==> text[i] == cardNumber[i - 2])
      && (forall i :: 19 <= i < 23 ==> text[i] == phoneLast4[i - 19])
      && text[24..] == BaseUuidTail
  {
  }

  /** A valid card and phone suffix always give UUID text the platform accepts. */
  lemma MinimalUuidIsValid(cardNumber: string, phoneLast4: string)
    requires IsDigitString(cardNumber, 16) && IsDigitString(phoneLast4, 4)
    ensures IsUuidText(MakeMinimalUuid(cardNumber, phoneLast4))
  {
    var text := MakeMinimalUuid(cardNumber, phoneLast4);
    MinimalUuidLayout(cardNumber, phoneLast4);
    forall i | 0 <= i < 36 && !IsDashPosition(i) ensures DigitValue(text[i]).Some? {
      if i < 8 {
        assert text[i] == cardNumber[i];
      } else if i < 13 {
        assert text[i] == cardNumber[i - 1];
      } else if i < 18 {
        assert text[i] == cardNumber[i - 2];
      } else if i < 23 {
        assert text[i] == phoneLast4[i - 19];
      } else {
        assert text[i] == BaseUuidTail[i - 24];
      }
    }
  }

  /** What a receiver reads back from a MINIMAL service UUID: its first 16
      digits as the card number and the next 4 as the phone suffix. */
  function ReadMinimalUuid(u: Uuid): (fields: (string, string))
    ensures |fields.0| == 16 && |fields.1| == 4
  {
    (seq(16, k requires 0 <= k < 16 => LowerDigit(u.digits[k])),
     seq(4, k requires 0 <= k < 4 => LowerDigit(u.digits[16 + k])))
  }

  lemma LowerDigitOfDecimal(c: char)
    requires IsDigit(c)
    ensures DigitValue(c).Some? && LowerDigit(DigitValue(c).value) == c
  {
  }

  /** The MINIMAL layout round-trips the card number and phone suffix. */
  lemma ReadMinimalUuidOfBuilt(cardNumber: string, phoneLast4: string)
    requires IsDigitString(cardNumber, 16) && IsDigitString(phoneLast4, 4)
    ensures ParseUuid(MakeMinimalUuid(cardNumber, phoneLast4)).Some?
    ensures ReadMinimalUuid(ParseUuid(MakeMinimalUuid(cardNumber, phoneLast4)).value) == (cardNumber, phoneLast4)
  {
    MinimalUuidIsValid(cardNumber, phoneLast4);
    var text := MakeMinimalUuid(cardNumber, phoneLast4);
    var u := ParseUuid(text).value;
    MinimalUuidLayout(cardNumber, phoneLast4);
    var fields := ReadMinimalUuid(u);
    forall k | 0 <= k < 16 ensures fields.0[k] == cardNumber[k] {
      assert text[DigitPosition(k)] == cardNumber[k];
      LowerDigitOfDecimal(cardNumber[k]);
    }
    forall k | 0 <= k < 4 ensures fields.1[k] == phoneLast4[k] {
      assert text[DigitPosition(16 + k)] == phoneLast4[k];
      LowerDigitOfDecimal(phoneLast4[k]);
    }
    assert fields.0 == cardNumber && fields.1 == phoneLast4;
  }

  /** The DATA payload before the service data is added. */
  function DataPayload(data: AdvertiseDataModel): Result<seq<Byte>, BuildError> {
    match data.encoding
    case ASCII => Ok(Utf8.Encode(data.cardNumber + data.phoneLast4))
    case BCD => ToBcd(data.cardNumber + data.phoneLast4)
  }

  /** `buildAdvertiseData`. MINIMAL advertises one service UUID and nothing
      else; DATA advertises one service-data entry under 0xFE10 and the tx
      power. */
  function BuildAdvertiseData(data: AdvertiseDataModel): (r: Result<AdvertiseData, BuildError>)
    ensures data.advertiseMode == MINIMAL ==>
      && (r.Ok? <==> |data.cardNumber| >= 16 && IsUuidText(MakeMinimalUuid(data.cardNumber, data.phoneLast4)))
      && (r.Ok? ==> && r.value.serviceUuids == [ParseUuid(MakeMinimalUuid(data.cardNumber, data.phoneLast4)).value]
                    && r.value.serviceData == []
                    && !r.value.includeTxPowerLevel && !r.value.includeDeviceName)
    ensures data.advertiseMode == DATA ==>
      && (r.Ok? <==> DataPayload(data).Ok?)
      && (r.Ok? ==> && r.value.serviceUuids == []
                    && r.value.serviceData == [(DataServiceUuid(), DataPayload(data).value)]
                    && r.value.includeTxPowerLevel && !r.value.includeDeviceName)
  {
    match data.advertiseMode
    case MINIMAL =>
      if |data.cardNumber| < 16 then Err(CardTooShort)
      else
        var text := MakeMinimalUuid(data.cardNumber, data.phoneLast4);
        (match ParseUuid(text)
         case None => Err(InvalidUuid(text))
         case Some(u) => Ok(AdvertiseData([u], [], false, false)))
    case DATA =>
      match DataPayload(data)
      case Err(e) => Err(e)
      case Ok(payload) => Ok(AdvertiseData([], [(DataServiceUuid(), payload)], true, false))
  }

  /** For a valid identity the DATA payload is 20 ASCII bytes that decode to
      card then phone, or 10 BCD bytes that unpack to them. */
  lemma DataPayloadOfValidIdentity(data: AdvertiseDataModel)
    requires IsDigitString(data.cardNumber, 16) && IsDigitString(data.phoneLast4, 4)
    ensures DataPayload(data).Ok?
    ensures data.encoding == ASCII ==>
      && |DataPayload(data).value| == 20
      && Utf8.Decode(DataPayload(data).value) == data.cardNumber + data.phoneLast4
    ensures data.encoding == BCD ==>
      && |DataPayload(data).value| == 10
      && UnpackBcd(DataPayload(data).value) == Some(data.cardNumber + data.phoneLast4)
  {
    var id := data.cardNumber + data.phoneLast4;
    assert AllDigits(id) && |id| == 20;
    match data.encoding
    case ASCII =>
      assert Utf8.IsAscii(id);
      Utf8.EncodeAscii(id);
      Utf8.DecodeEncode(id);
    case BCD =>
      UnpackToBcd(id);
  }

  /** Every identity the view model accepts builds, in both layouts. */
  lemma BuildOfValidIdentity(data: AdvertiseDataModel)
    requires IsDigitString(data.cardNumber, 16) && IsDigitString(data.phoneLast4, 4)
    ensures BuildAdvertiseData(data).Ok?
  {
    if data.advertiseMode == MINIMAL {
      MinimalUuidIsValid(data.cardNumber, data.phoneLast4);
    } else {
      DataPayloadOfValidIdentity(data);
    }
  }

  /** `buildScanResponse`: only the device-name flag, whatever the input. */
  function BuildScanResponse(data: AdvertiseDataModel): (r: AdvertiseData)
    ensures r.serviceUuids == [] && r.serviceData == []
    ensures r.includeDeviceName && !r.includeTxPowerLevel
  {
    DeviceNameOnly
  }

  function ServiceDataLine(entry: (Uuid, seq<Byte>)): string {
    "ServiceData(" + UuidToString(entry.0) + "): " + BackupByteUtils.BytesToHex(entry.1) + "\n"
  }

  function ServiceUuidLine(u: Uuid): string {
    "ServiceUuid: " + UuidToString(u) + "\n"
  }

  function ServiceDataLines(entries: seq<(Uuid, seq<Byte>)>): string {
    if entries == [] then ""
    else ServiceDataLines(entries[..|entries| - 1]) + ServiceDataLine(entries[|entries| - 1])
  }

  function ServiceUuidLines(uuids: seq<Uuid>): string {
    if uuids == [] then ""
    else ServiceUuidLines(uuids[..|uuids| - 1]) + ServiceUuidLine(uuids[|uuids| - 1])
  }

  /** The untrimmed debug text: service-data lines, then service-UUID lines,
      then the device-name line. */
  function RawHexText(adv: AdvertiseData, deviceName: string): string {
    ServiceDataLines(adv.serviceData) + ServiceUuidLines(adv.serviceUuids)
      + "DeviceName: " + deviceName + "\n"
  }

  /** `getAdvertiseRawHex`: fails where `buildAdvertiseData` fails, otherwise
      the trimmed debug text of the built advertisement. */
  method GetAdvertiseRawHex(data: AdvertiseDataModel) returns (r: Result<string, BuildError>)
    ensures BuildAdvertiseData(data).Err? ==> r == Err(BuildAdvertiseData(data).error)
    ensures BuildAdvertiseData(data).Ok? ==>
      r == Ok(Trim(RawHexText(BuildAdvertiseData(data).value, data.deviceName)))
  {
    var built := BuildAdvertiseData(data);
    if built.Err? {
      return Err(built.error);
    }
    var text := RenderRawHex(built.value, data.deviceName);
    r := Ok(text);
  }

  /** The string-builder part of `getAdvertiseRawHex`: the service-data
      lines, the service-UUID lines and the device-name line, trimmed. */
  method RenderRawHex(adv: AdvertiseData, deviceName: string) returns (text: string)
    ensures text == Trim(RawHexText(adv, deviceName))
  {
    var sb := AppendServiceData("", adv.serviceData);
    assert sb == ServiceDataLines(adv.serviceData);
    sb := AppendServiceUuids(sb, adv.serviceUuids);
    sb := sb + "DeviceName: " + deviceName + "\n";
    assert sb == RawHexText(adv, deviceName);
    text := Trim(sb);
  }

  /** `serviceData?.forEach { (uuid, bytes) -> ... }` on the builder. */
  method AppendServiceData(sb0: string, entries: seq<(Uuid, seq<Byte>)>) returns (sb: string)
    ensures sb == sb0 + ServiceDataLines(entries)
  {
    sb := sb0;
    var i := 0;
    while i < |entries|
      invariant 0 <= i <= |entries|
      invariant sb == sb0 + ServiceDataLines(entries[..i])
    {
      ghost var before := sb;
      var (uuid, bytes) := entries[i];
      sb := sb + "ServiceData(" + UuidToString(uuid) + "): ";
      sb := sb + BackupByteUtils.BytesToHex(bytes);
      sb := sb + "\n";
      assert sb == before + ServiceDataLine(entries[i]);
      assert entries[..i + 1][..i] == entries[..i];
      assert ServiceDataLines(entries[..i + 1]) == ServiceDataLines(entries[..i]) + ServiceDataLine(entries[i]);
      i := i + 1;
    }
    assert entries[..i] == entries;
  }

  /** `serviceUuids?.forEach { uuid -> ... }` on the builder. */
  method AppendServiceUuids(sb0: string, uuids: seq<Uuid>) returns (sb: string)
    ensures sb == sb0 + ServiceUuidLines(uuids)
  {
    sb := sb0;
    var j := 0;
    while j < |uuids|
      invariant 0 <= j <= |uuids|
      invariant sb == sb0 + ServiceUuidLines(uuids[..j])
    {
      ghost var before := sb;
      sb := sb + "ServiceUuid: " + UuidToString(uuids[j]) + "\n";
      assert sb == before + ServiceUuidLine(uuids[j]);
      assert uuids[..j + 1][..j] == uuids[..j];
      assert ServiceUuidLines(uuids[..j + 1]) == ServiceUuidLines(uuids[..j]) + ServiceUuidLine(uuids[j]);
      j := j + 1;
    }
    assert uuids[..j] == uuids;
  }

  /** With one service-data entry and no service UUIDs, the debug text is
      that entry's line, then the device-name line. */
  lemma RawHexOfSingleEntry(adv: AdvertiseData, deviceName: string)
    requires |adv.serviceData| == 1 && adv.serviceUuids == []
    ensures RawHexText(adv, deviceName) == "ServiceData(" + UuidToString(adv.serviceData[0].0) + "): "
        + BackupByteUtils.BytesToHex(adv.serviceData[0].1) + "\nDeviceName: " + deviceName + "\n"
  {
    assert adv.serviceData[..0] == [];
    assert ServiceDataLines(adv.serviceData) == ServiceDataLine(adv.serviceData[0]);
    assert ServiceUuidLines(adv.serviceUuids) == "";
  }

  /** Trimming that text drops just the final newline when the device name
      does not end in whitespace. */
  lemma TrimOfSingleEntry(adv: AdvertiseData, deviceName: string)
    requires |adv.serviceData| == 1 && adv.serviceUuids == []
    requires deviceName != [] && !IsWhitespace(deviceName[|deviceName| - 1])
    ensures Trim(RawHexText(adv, deviceName)) == "ServiceData(" + UuidToString(adv.serviceData[0].0) + "): "
        + BackupByteUtils.BytesToHex(adv.serviceData[0].1) + "\nDeviceName: " + deviceName
  {
    var head := "ServiceData(" + UuidToString(adv.serviceData[0].0) + "): "
        + BackupByteUtils.BytesToHex(adv.serviceData[0].1) + "\nDeviceName: ";
    assert head[0] == 'S';
    RawHexOfSingleEntry(adv, deviceName);
    TrimOfJoinedLine(head, deviceName);
  }

  /** The debug text of any advertisement whose only content is a payload
      under the 0xFE10 service. */
  lemma RawHexOfDataService(adv: AdvertiseData, deviceName: string, u: Uuid, payload: seq<Byte>)
    requires UuidToString(u) == DataServiceUuidString
    requires adv.serviceData == [(u, payload)] && adv.serviceUuids == []
    ensures RawHexText(adv, deviceName)
      == "ServiceData(" + DataServiceUuidString + "): "
        + BackupByteUtils.BytesToHex(payload) + "\nDeviceName: " + deviceName + "\n"
    ensures deviceName != [] && !IsWhitespace(deviceName[|deviceName| - 1]) ==>
      Trim(RawHexText(adv, deviceName))
      == "ServiceData(" + DataServiceUuidString + "): "
        + BackupByteUtils.BytesToHex(payload) + "\nDeviceName: " + deviceName
  {
    RawHexOfSingleEntry(adv, deviceName);
    if deviceName != [] && !IsWhitespace(deviceName[|deviceName| - 1]) {
      TrimOfSingleEntry(adv, deviceName);
    }
  }

  /** The DATA debug text: one service-data line under the 0xFE10 UUID in
      lower case, then the device name; with a name that does not end in
      whitespace, trimming removes just the final newline. */
  lemma RawHexOfDataLayout(data: AdvertiseDataModel)
    requires data.advertiseMode == DATA && BuildAdvertiseData(data).Ok?
    ensures RawHexText(BuildAdvertiseData(data).value, data.deviceName)
      == "ServiceData(" + DataServiceUuidString + "): "
        + BackupByteUtils.BytesToHex(DataPayload(data).value) + "\nDeviceName: " + data.deviceName + "\n"
    ensures data.deviceName != [] && !IsWhitespace(data.deviceName[|data.deviceName| - 1]) ==>
      Trim(RawHexText(BuildAdvertiseData(data).value, data.deviceName))
      == "ServiceData(" + DataServiceUuidString + "): "
        + BackupByteUtils.BytesToHex(DataPayload(data).value) + "\nDeviceName: " + data.deviceName
  {
    RawHexOfDataService(BuildAdvertiseData(data).value, data.deviceName, DataServiceUuid(), DataPayload(data).value);
  }

  /** The MINIMAL debug text: one service-UUID line with the built UUID text
      in lower case, then the device name. */
  lemma RawHexOfMinimalLayout(data: AdvertiseDataModel)
    requires data.advertiseMode == MINIMAL && BuildAdvertiseData(data).Ok?
    ensures var text := "ServiceUuid: " + ToLowerAscii(MakeMinimalUuid(data.cardNumber, data.phoneLast4))
        + "\nDeviceName: " + data.deviceName;
      && RawHexText(BuildAdvertiseData(data).value, data.deviceName) == text + "\n"
      && (data.deviceName != [] && !IsWhitespace(data.deviceName[|data.deviceName| - 1]) ==>
            Trim(RawHexText(BuildAdvertiseData(data).value, data.deviceName)) == text)
  {
    var adv := BuildAdvertiseData(data).value;
    var uuidText := MakeMinimalUuid(data.cardNumber, data.phoneLast4);
    UuidToStringOfParsed(uuidText);
    assert adv.serviceUuids[..0] == [];
    assert ServiceUuidLines(adv.serviceUuids) == ServiceUuidLine(adv.serviceUuids[0]);
    var text := "ServiceUuid: " + ToLowerAscii(uuidText) + "\nDeviceName: " + data.deviceName;
    assert RawHexText(adv, data.deviceName) == text + "\n";
    if data.deviceName != [] && !IsWhitespace(data.deviceName[|data.deviceName| - 1]) {
      assert text[|text| - 1] == data.deviceName[|data.deviceName| - 1];
      TrimOfLine(text);
    }
  }
}
