/** `AdvertisePacketBuilder` of the main tree: the card number and a one-letter
    KakaoPay flag as service data under 0xFE10, and a scan response that
    carries only the device name. */
module PacketBuilder {
  import opened Bytes
  import opened Advertising
  import Utf8

  /** The main tree's `AdvertiseDataModel`, with its default device name. */
  datatype AdvertiseDataModel = AdvertiseDataModel(
    cardNumber: string,
    kakaoPayInstalled: bool,
    deviceName: string := "mcandle")

  /** The flag letter appended to the card number. */
  function FlagLetter(kakaoPayInstalled: bool): (c: char)
    ensures c == (if kakaoPayInstalled then 'Y' else 'N')
    ensures Utf8.EncodeChar(c) == [c as int]
  {
    if kakaoPayInstalled then 'Y' else 'N'
  }

  /** The service-data payload: the UTF-8 bytes of the card number and the flag letter. */
  function Payload(data: AdvertiseDataModel): (p: seq<Byte>)
    ensures |p| == |Utf8.Encode(data.cardNumber)| + 1
    ensures p[..|p| - 1] == Utf8.Encode(data.cardNumber)
    ensures p[|p| - 1] == (if data.kakaoPayInstalled then 0x59 else 0x4E)
  {
    Utf8.EncodeAppend(data.cardNumber, [FlagLetter(data.kakaoPayInstalled)]);
    Utf8.Encode(data.cardNumber + [FlagLetter(data.kakaoPayInstalled)])
  }

  /** `buildAdvertiseData`: one service-data entry under 0xFE10 and the tx
      power, no service UUIDs and no device name; it never fails. */
  function BuildAdvertiseData(data: AdvertiseDataModel): (r: AdvertiseData)
    ensures r.serviceUuids == []
    ensures r.serviceData == [(DataServiceUuid(), Payload(data))]
    ensures r.includeTxPowerLevel && !r.includeDeviceName
  {
    AdvertiseData([], [(DataServiceUuid(), Payload(data))], true, false)
  }

  /** A receiver that decodes the payload as UTF-8 gets the card number and
      the flag back: the text ends in `Y` exactly when KakaoPay is installed. */
  lemma DecodePayload(data: AdvertiseDataModel)
    ensures var text := Utf8.Decode(BuildAdvertiseData(data).serviceData[0].1);
      && text == data.cardNumber + [FlagLetter(data.kakaoPayInstalled)]
      && text[..|text| - 1] == data.cardNumber
      && (text[|text| - 1] == 'Y' <==> data.kakaoPayInstalled)
  {
    var text := data.cardNumber + [FlagLetter(data.kakaoPayInstalled)];
    Utf8.DecodeEncode(text);
    assert text[..|text| - 1] == data.cardNumber;
  }

  /** Two models advertise the same bytes only if they carry the same card
      number and flag. */
  lemma PayloadInjective(a: AdvertiseDataModel, b: AdvertiseDataModel)
    requires BuildAdvertiseData(a) == BuildAdvertiseData(b)
    ensures a.cardNumber == b.cardNumber && a.kakaoPayInstalled == b.kakaoPayInstalled
  {
    DecodePayload(a);
    DecodePayload(b);
  }

  /** `buildScanResponse`: only the device-name flag, whatever the input. */
  function BuildScanResponse(data: AdvertiseDataModel): (r: AdvertiseData)
    ensures r.serviceUuids == [] && r.serviceData == []
    ensures r.includeDeviceName && !r.includeTxPowerLevel
  {
    DeviceNameOnly
  }
}
