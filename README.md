# mcandle BLE advertiser — a verified model of its protocol core

The app advertises a card number over Bluetooth Low Energy. It scans for an
iBeacon frame that carries a phone suffix, and it runs a small GATT server.
A scanner writes an order id to that server and reads back a JSON-shaped
response. This project models the logic under the Android screens and proves
its properties:

- **iBeacon frame decoder** (`IBeaconParser`). It decodes a manufacturer-specific
  data payload in Apple's iBeacon layout. The layout is type `0x02`, length
  `0x15`, a 16-byte id, big-endian major and minor, and a signed tx power. The
  manufacturer data AD type is section 1.4 of Part A of the Bluetooth Core
  Specification Supplement. The decoder is total. Its fields are proved
  against the bytes. A payload built from an order number, a phone suffix and
  the numeric fields decodes back to them.
- **Advertisement builders, backup tree** (`BackupPacketBuilder`):
  - packed BCD, with an unpacking inverse;
  - the MINIMAL layout: the identity in one service UUID, in the string form of
    section 3 of RFC 4122, ending in the last group of the Bluetooth Base UUID
    (volume 3, part B, section 2.5.1 of the Bluetooth Core Specification);
  - the DATA layout: service data under the 16-bit UUID 0xFE10;
  - the scan response;
  - the raw-hex debug text.

  Both layouts are proved to carry the card number and the phone suffix in a
  form a receiver can read back.
- **Advertisement builder, main tree** (`PacketBuilder`). It sends the card
  number followed by a `Y`/`N` KakaoPay flag.
- **Byte renderers** (`ByteUtils` and `BackupByteUtils`). They produce
  space-separated upper-case hex, which reads back to the bytes, and a
  printable-ASCII view of bytes.
- **Scan matcher** (`BleScannerManager`). This is a class with `isScanning`,
  `matched`, `expectedPhoneLast4` and the pending timeout:
  - the start guard;
  - the phone/minor match rule;
  - the idempotent stop;
  - the timeout;
  - the per-mode filter list.

  A scan in progress has never matched, because a match stops the scan and
  cancels the timer. So the timeout always reports "not found". The source's
  "stopped after match" message in the timeout callback cannot be reached.
- **GATT order channel** (`OrderDataParser` and `GattServerManager`).
  - A write of `AT+CONNECT`, in any case and with surrounding whitespace, is a
    connect command. Any other write is an order id, or a parse failure when
    it is all whitespace.
  - A one-slot response is stored for the next read.
  - Responses are built by substituting into
    `{"status": "…", "message": "…"}` without escaping. The record reads back
    exactly when the message needs no escape under section 7 of RFC 8259.
- **View model** (`BleAdvertiseViewModel`). It validates the 16-digit card
  number and the 4-digit phone suffix before replacing the advertising
  record. It also holds the typed phone suffix, the advertising and scanning
  flags, and the message, start-request and match streams.

Shared modules model platform behaviour:

| module | models |
|---|---|
| `Fallible` | Option and Result |
| `Bytes` | bytes 0..255, signed and big-endian reads |
| `Text` | Kotlin `trim`/`trimEnd`, digits, ASCII case |
| `Utf8` | the UTF-8 and US-ASCII charsets |
| `Hex` | `%02X` |
| `Advertising` | `ParcelUuid` and the `AdvertiseData` fields the builders set |

Environment facts are parameters of the event methods: whether a scanner
exists, permission results, a `SecurityException`, and the outcomes of
`openGattServer` and `addService`. The listener callbacks, radio requests,
GATT callbacks, `sendResponse` calls and flow emissions are logs held in
fields.

## Model

| member | source | states |
|---|---|---|
| Bytes.ToSigned | app/src/main/java/com/mcandle/bleapp/scan/IBeaconParser.kt:62 | `Byte.toInt()`: the value is in -128..127, congruent to the byte mod 256, negative exactly when the byte is 0x80 or more |
| Bytes.BigEndian16 | app/src/main/java/com/mcandle/bleapp/scan/IBeaconParser.kt:58-61 | a big-endian short masked with 0xFFFF: in 0..65535, high byte is the quotient by 256 and low byte the remainder |
| Text.TrimEnd | app/src/main/java/com/mcandle/bleapp/scan/IBeaconParser.kt:55 | the result is a prefix of the input, does not end in whitespace, and everything removed is whitespace |
| Text.Trim | app/src/main/java/com/mcandle/bleapp/gatt/OrderDataParser.kt:29 | the result is a prefix of `TrimStart(s)`, the suffix left after the leading whitespace, and only whitespace follows it there; neither of its ends is whitespace, and it is empty exactly when the input is all whitespace |
| Text.TrimStart | app/src/main/java/com/mcandle/bleapp/gatt/OrderDataParser.kt:29 | the result is a suffix of the input, does not start with whitespace, and everything removed is whitespace |
| Text.TrimIdempotent | app/src/main/java/com/mcandle/bleapp/gatt/OrderDataParser.kt:29 | trimming twice is trimming once |
| Utf8.DecodeEncode | app/src/main/java/com/mcandle/bleapp/gatt/OrderDataParser.kt:29 | decoding the UTF-8 bytes of any string gives the string back |
| Utf8.EncodeInjective | app/src/main/java/com/mcandle/bleapp/gatt/OrderDataParser.kt:53-54 | distinct strings have distinct UTF-8 bytes |
| Utf8.DecodeAscii | app/src/main/java/com/mcandle/bleapp/scan/IBeaconParser.kt:52 | US-ASCII decoding yields one character per byte, the byte itself below 0x80 and U+FFFD otherwise |
| Hex.Format02X | app/src/main/java/com/mcandle/bleapp/util/ByteUtils.kt:5 | `%02X` yields two upper-case hex digits that read back as the byte |
| Hex.FormatHex | app/src/main/java/com/mcandle/bleapp/scan/IBeaconParser.kt:53 | the joined `%02X` rendering has two upper-case digits per byte, pair `i` reading back as byte `i` |
| Advertising.ParseUuid | app/backup/src/main/java/com/mcandle/bleapp/advertise/AdvertisePacketBuilder.kt:24 | fails exactly on text outside the 8-4-4-4-12 form; digit `k` of the result is the hex digit at the matching text position |
| Advertising.UuidToStringOfParsed | app/backup/src/main/java/com/mcandle/bleapp/advertise/AdvertisePacketBuilder.kt:57 | an accepted UUID text is printed back in lower case |
| Advertising.DataServiceUuid | app/backup/src/main/java/com/mcandle/bleapp/advertise/AdvertisePacketBuilder.kt:30 | the parsed 0xFE10 service UUID prints as `0000fe10-0000-1000-8000-00805f9b34fb` (`DataServiceUuidString`) |
| Advertising.DataServiceUuidRendering | app/backup/src/main/java/com/mcandle/bleapp/advertise/AdvertisePacketBuilder.kt:30 | the source's upper-case UUID text lowers to exactly that printed form |
| Advertising.ParseUuidToString | app/backup/src/main/java/com/mcandle/bleapp/advertise/AdvertisePacketBuilder.kt:57 | parsing the printed form of any UUID gives the UUID back |
| IBeaconParser.Parse | app/src/main/java/com/mcandle/bleapp/scan/IBeaconParser.kt:44-69 | total; no frame exactly for inputs shorter than 23 bytes, with no check of the type/length prefix; the frame carries the given company id |
| IBeaconParser.OrderNumberOfFrame | app/src/main/java/com/mcandle/bleapp/scan/IBeaconParser.kt:51-55 | the order number is the ASCII text of bytes 2..13 with trailing whitespace removed: at most 12 characters, none trailing whitespace |
| IBeaconParser.PhoneLast4OfFrame | app/src/main/java/com/mcandle/bleapp/scan/IBeaconParser.kt:56 | the phone suffix is exactly the 4 characters decoded from bytes 14..17 |
| IBeaconParser.NumericFieldsOfFrame | app/src/main/java/com/mcandle/bleapp/scan/IBeaconParser.kt:58-62 | major is `d[18]*256+d[19]`, minor is `d[20]*256+d[21]`, both in 0..65535; tx power is `d[22]` as signed |
| IBeaconParser.UuidOfFrame | app/src/main/java/com/mcandle/bleapp/scan/IBeaconParser.kt:53 | the uuid field is the 32 upper-case hex digits of bytes 2..17 |
| IBeaconParser.ParseIgnoresTrailingBytes | app/src/main/java/com/mcandle/bleapp/scan/IBeaconParser.kt:49-64 | bytes after index 22 never affect the frame |
| IBeaconParser.ParseFrom | app/src/main/java/com/mcandle/bleapp/scan/IBeaconParser.kt:27-38 | no frame exactly when no entry is at least 23 bytes with prefix 02 15; otherwise the frame of the first such entry in `SparseArray` index order, with its company id |
| IBeaconParser.ParseFromLowestCompany | app/src/main/java/com/mcandle/bleapp/scan/IBeaconParser.kt:27-38 | with the strictly ascending company ids a `SparseArray` indexes by, the frame comes from the qualifying entry with the smallest company id |
| IBeaconParser.ParseIBeaconPayload | app/src/main/java/com/mcandle/bleapp/scan/IBeaconParser.kt:44-64 | a payload built from an order number, a 4-character suffix, major, minor and tx power passes the entry test and decodes to exactly those fields |
| ByteUtils.BytesToHex | app/src/main/java/com/mcandle/bleapp/util/ByteUtils.kt:4-6 | `""` for no bytes, length 3n-1 otherwise; group `i` is the `%02X` of byte `i`, groups separated by single spaces |
| ByteUtils.ReadBytesToHex | app/src/main/java/com/mcandle/bleapp/util/ByteUtils.kt:5 | reading the hex pairs back recovers the input bytes |
| ByteUtils.BytesToHexInjective | app/src/main/java/com/mcandle/bleapp/util/ByteUtils.kt:5 | distinct byte arrays render differently |
| BackupByteUtils.ByteToHex | app/backup/src/main/java/com/mcandle/bleapp/util/ByteUtils.kt:9-11 | two upper-case hex digits that read back as the unsigned byte |
| BackupByteUtils.BytesToHexAgreesWithMainTree | app/backup/src/main/java/com/mcandle/bleapp/util/ByteUtils.kt:5-7 | joining `byteToHex` of each byte with single spaces is the main tree's rendering, so its length, layout and read-back hold too |
| BackupByteUtils.BytesToAsciiSafe | app/backup/src/main/java/com/mcandle/bleapp/util/ByteUtils.kt:13-17 | same length as the input; bytes 0x20..0x7E keep their character, every other byte becomes `.`; every output character is printable ASCII |
| BackupByteUtils.AsciiSafeIdempotent | app/backup/src/main/java/com/mcandle/bleapp/util/ByteUtils.kt:16 | the output is ASCII, and rendering its own bytes changes nothing |
| BackupPacketBuilder.PackPairs | app/backup/src/main/java/com/mcandle/bleapp/advertise/AdvertisePacketBuilder.kt:14-16 | even-length digit strings give n/2 bytes with byte `i = 16*digit[2i] + digit[2i+1]`; any non-digit fails |
| BackupPacketBuilder.ToBcd | app/backup/src/main/java/com/mcandle/bleapp/advertise/AdvertisePacketBuilder.kt:12-17 | odd length fails the `require`; a non-digit fails; otherwise n/2 bytes packing digit pairs high nibble first |
| BackupPacketBuilder.UnpackToBcd | app/backup/src/main/java/com/mcandle/bleapp/advertise/AdvertisePacketBuilder.kt:14-16 | unpacking the nibbles of `toBcd` recovers every even-length digit string |
| BackupPacketBuilder.MinimalUuidLayout | app/backup/src/main/java/com/mcandle/bleapp/advertise/AdvertisePacketBuilder.kt:70-77 | the UUID text is 36 characters: card 0..8, dash, card 8..12, dash, card 12..16, dash, phone suffix, dash, `00805F9B34FB` |
| BackupPacketBuilder.MinimalUuidIsValid | app/backup/src/main/java/com/mcandle/bleapp/advertise/AdvertisePacketBuilder.kt:23-24 | for a 16-digit card and 4-digit suffix the built text is accepted by `ParcelUuid.fromString` |
| BackupPacketBuilder.ReadMinimalUuidOfBuilt | app/backup/src/main/java/com/mcandle/bleapp/advertise/AdvertisePacketBuilder.kt:22-28 | the first 16 digits of the MINIMAL service UUID are the card number and the next 4 the phone suffix |
| BackupPacketBuilder.BuildAdvertiseData | app/backup/src/main/java/com/mcandle/bleapp/advertise/AdvertisePacketBuilder.kt:19-42 | MINIMAL: exactly one service UUID (the built one), no service data, no tx power, failing exactly on a short card or unparsable text; DATA: one service-data entry under 0xFE10 holding the payload, tx power set, failing exactly when the payload fails |
| BackupPacketBuilder.DataPayloadOfValidIdentity | app/backup/src/main/java/com/mcandle/bleapp/advertise/AdvertisePacketBuilder.kt:31-34 | for valid input the ASCII payload is 20 bytes decoding to card then suffix, and the BCD payload 10 bytes unpacking to them |
| BackupPacketBuilder.BuildOfValidIdentity | app/backup/src/main/java/com/mcandle/bleapp/advertise/AdvertisePacketBuilder.kt:19-42 | every 16-digit card with a 4-digit suffix builds, in both layouts and both encodings |
| BackupPacketBuilder.BuildScanResponse | app/backup/src/main/java/com/mcandle/bleapp/advertise/AdvertisePacketBuilder.kt:44-48 | only the include-device-name flag is set, whatever the input |
| BackupPacketBuilder.GetAdvertiseRawHex | app/backup/src/main/java/com/mcandle/bleapp/advertise/AdvertisePacketBuilder.kt:51-68 | fails where the build fails; otherwise the trimmed text of the service-data lines in order, then the service-UUID lines, then the device-name line |
| BackupPacketBuilder.RenderRawHex | app/backup/src/main/java/com/mcandle/bleapp/advertise/AdvertisePacketBuilder.kt:52-67 | the builder ends up holding the service-data lines, the service-UUID lines and the device-name line, and the result is that text trimmed |
| BackupPacketBuilder.AppendServiceData | app/backup/src/main/java/com/mcandle/bleapp/advertise/AdvertisePacketBuilder.kt:55-59 | appends exactly one `ServiceData(<uuid>): <hex>` line per entry, in map order, after what the builder held |
| BackupPacketBuilder.AppendServiceUuids | app/backup/src/main/java/com/mcandle/bleapp/advertise/AdvertisePacketBuilder.kt:61-63 | appends exactly one `ServiceUuid: <uuid>` line per UUID, in list order, after what the builder held |
| BackupPacketBuilder.RawHexOfSingleEntry | app/backup/src/main/java/com/mcandle/bleapp/advertise/AdvertisePacketBuilder.kt:55-66 | with one service-data entry and no UUIDs the text is `ServiceData(<uuid>): <hex>` then `DeviceName: <name>` |
| BackupPacketBuilder.TrimOfSingleEntry | app/backup/src/main/java/com/mcandle/bleapp/advertise/AdvertisePacketBuilder.kt:67 | trimming drops only the final newline when the device name does not end in whitespace |
| BackupPacketBuilder.RawHexOfDataService | app/backup/src/main/java/com/mcandle/bleapp/advertise/AdvertisePacketBuilder.kt:51-67 | an advertisement holding only a payload under 0xFE10 renders with the lower-case service UUID |
| BackupPacketBuilder.RawHexOfDataLayout | app/backup/src/main/java/com/mcandle/bleapp/advertise/AdvertisePacketBuilder.kt:29-40 | the DATA debug text is `ServiceData(0000fe10-0000-1000-8000-00805f9b34fb): <hex of payload>` then `DeviceName: <name>` |
| BackupPacketBuilder.RawHexOfMinimalLayout | app/backup/src/main/java/com/mcandle/bleapp/advertise/AdvertisePacketBuilder.kt:22-28 | the MINIMAL debug text is `ServiceUuid: ` and the built UUID text in lower case, then `DeviceName: <name>` |
| PacketBuilder.FlagLetter | app/src/main/java/com/mcandle/bleapp/advertise/AdvertisePacketBuilder.kt:10 | `Y` when KakaoPay is installed, `N` otherwise, each one byte in UTF-8 |
| PacketBuilder.Payload | app/src/main/java/com/mcandle/bleapp/advertise/AdvertisePacketBuilder.kt:10-11 | one byte longer than the card's UTF-8 bytes, which are its prefix; the last byte is 0x59 or 0x4E by the flag |
| PacketBuilder.BuildAdvertiseData | app/src/main/java/com/mcandle/bleapp/advertise/AdvertisePacketBuilder.kt:8-17 | one service-data entry under 0xFE10 holding the payload, tx power set, no service UUIDs |
| PacketBuilder.DecodePayload | app/src/main/java/com/mcandle/bleapp/advertise/AdvertisePacketBuilder.kt:10-11 | the payload decodes to the card number then the flag letter, which is `Y` exactly when KakaoPay is installed |
| PacketBuilder.PayloadInjective | app/src/main/java/com/mcandle/bleapp/advertise/AdvertisePacketBuilder.kt:8-17 | equal advertisements come only from equal card numbers and flags |
| PacketBuilder.BuildScanResponse | app/src/main/java/com/mcandle/bleapp/advertise/AdvertisePacketBuilder.kt:19-23 | only the include-device-name flag, independent of the data |
| BleScannerManager.IBeaconFilter | app/src/main/java/com/mcandle/bleapp/scan/BleScannerManager.kt:147-156 | a filter on the given company with data 02 15 and mask FF FF |
| BleScannerManager.BuildScanFilters | app/src/main/java/com/mcandle/bleapp/scan/BleScannerManager.kt:133-187 | ALL: none; RFSTAR_ONLY: one 0x5246 filter with empty data; IBEACON_RFSTAR / IBEACON_APPLE: one iBeacon filter under 0x5246 / 0x004C; IBEACON_ANY: the RFSTAR one then the Apple one |
| BleScannerManager.IBeaconModesFilterOnPrefix | app/src/main/java/com/mcandle/bleapp/scan/BleScannerManager.kt:137-186 | iBeacon modes filter on 02 15 with mask FF FF under RFSTAR or Apple, and every entry `parseFrom` accepts starts with that filter data; other modes constrain no payload |
| BleScannerManager.IBeaconAnyIsBoth | app/src/main/java/com/mcandle/bleapp/scan/BleScannerManager.kt:169-185 | IBEACON_ANY is the IBEACON_RFSTAR list followed by the IBEACON_APPLE list |
| BleScannerManager.FrameOf | app/src/main/java/com/mcandle/bleapp/scan/BleScannerManager.kt:105 | no frame without a scan record; otherwise `parseFrom` over its manufacturer entries |
| BleScannerManager.MatchOf | app/src/main/java/com/mcandle/bleapp/scan/BleScannerManager.kt:105-112 | a match exactly when the frame parses, a target is set, the suffix equals it, and no minor is expected or the minor equals it |
| BleScannerManager.NoTargetNoMatch | app/src/main/java/com/mcandle/bleapp/scan/BleScannerManager.kt:111 | with no target suffix no result ever matches |
| BleScannerManager.BuiltFrameMatches | app/src/main/java/com/mcandle/bleapp/scan/BleScannerManager.kt:105-112 | a beacon payload carrying the target suffix matches, with or without the expected minor, and reports its order number |
| BleScannerManager.StopEvents | app/src/main/java/com/mcandle/bleapp/scan/BleScannerManager.kt:92-93 | a stop reports exactly one event, the permission error, when the radio refuses it, and nothing otherwise |
| BleScannerManager.ScannerManager.constructor | app/src/main/java/com/mcandle/bleapp/scan/BleScannerManager.kt:16-38 | defaults: no expected minor, 60000 ms timeout, mode ALL; not scanning, not matched, no target |
| BleScannerManager.ScannerManager.StartScan | app/src/main/java/com/mcandle/bleapp/scan/BleScannerManager.kt:42-84 | no change while scanning; otherwise clears the match and records the target first; scanning starts exactly when a scanner exists, permission is granted and the radio does not throw, each failure emitting one info message; a start asks for the mode's filters and posts the timeout |
| BleScannerManager.ScannerManager.StopScan | app/src/main/java/com/mcandle/bleapp/scan/BleScannerManager.kt:87-98 | a no-op when not scanning; otherwise always ends the scan and cancels pending timeouts, even when the radio throws, leaving match and target unchanged |
| BleScannerManager.ScannerManager.OnScanResult | app/src/main/java/com/mcandle/bleapp/scan/BleScannerManager.kt:101-126 | every result is reported first; a match sets `matched`, reports the frame and stops the scan; other results change no state |
| BleScannerManager.ScannerManager.RecordMatch | app/src/main/java/com/mcandle/bleapp/scan/BleScannerManager.kt:113-116 | the match is recorded and the frame reported before the stop; afterwards the scan is off with no timer pending, and a scan in progress still cannot have matched |
| BleScannerManager.ScannerManager.OnScanFailed | app/src/main/java/com/mcandle/bleapp/scan/BleScannerManager.kt:128-130 | only reports the error code |
| BleScannerManager.ScannerManager.OnTimeout | app/src/main/java/com/mcandle/bleapp/scan/BleScannerManager.kt:70-78 | the pending timeout stops the scan and always reports that nothing was found |
| OrderDataParser.Parse | app/src/main/java/com/mcandle/bleapp/gatt/OrderDataParser.kt:28-43 | fails with "Data is empty" exactly when the decoded text is all whitespace; otherwise the order id is the trimmed text and there is no additional data |
| OrderDataParser.OrderIdIsTrimmed | app/src/main/java/com/mcandle/bleapp/gatt/OrderDataParser.kt:29-42 | an accepted order id is non-empty with no whitespace at either end |
| OrderDataParser.ParseOfText | app/src/main/java/com/mcandle/bleapp/gatt/OrderDataParser.kt:29-34 | the UTF-8 bytes of a text fail exactly when its trim is empty, and otherwise give its trim |
| OrderDataParser.ParseIdempotent | app/src/main/java/com/mcandle/bleapp/gatt/OrderDataParser.kt:28-43 | parsing the bytes of an accepted order id gives the same request |
| OrderDataParser.ResponseText | app/src/main/java/com/mcandle/bleapp/gatt/OrderDataParser.kt:53 | the record is the status prefix, the message verbatim, then `"}` |
| OrderDataParser.CreateResponse | app/src/main/java/com/mcandle/bleapp/gatt/OrderDataParser.kt:52-55 | the bytes are the UTF-8 encoding of the record text and decode back to it; the message defaults to empty |
| OrderDataParser.ReadCreatedResponse | app/src/main/java/com/mcandle/bleapp/gatt/OrderDataParser.kt:52-54 | the record reads back as its status and message exactly when the message holds no quote, backslash or control character |
| GattServerManager.HandleWrite | app/src/main/java/com/mcandle/bleapp/gatt/GattServerManager.kt:169-263 | a reply is sent exactly when one is needed; the only callbacks a write fires are the connect and order callbacks |
| GattServerManager.WriteToOtherCharacteristic | app/src/main/java/com/mcandle/bleapp/gatt/GattServerManager.kt:248-258 | a write elsewhere fires nothing, stores nothing, and is answered GATT_FAILURE with no value when a reply is needed |
| GattServerManager.ConnectCommandWrite | app/src/main/java/com/mcandle/bleapp/gatt/GattServerManager.kt:186-206 | `AT+CONNECT` fires the connect callback, stores the "Connected" record and is acknowledged with the written value; it is not parsed as an order |
| GattServerManager.OrderWrite | app/src/main/java/com/mcandle/bleapp/gatt/GattServerManager.kt:210-230 | another parsable write fires the order callback with the trimmed text and no additional data, stores "Order received" and is acknowledged with the written value |
| GattServerManager.FailedOrderWrite | app/src/main/java/com/mcandle/bleapp/gatt/GattServerManager.kt:231-246 | a failed parse (all-whitespace text) fires nothing, stores the error record with "Data is empty", and is answered GATT_FAILURE with no value |
| GattServerManager.Store | app/src/main/java/com/mcandle/bleapp/gatt/GattServerManager.kt:141-144 | the value is replaced when the characteristic exists, and nothing happens otherwise |
| GattServerManager.StoredOrDefault | app/src/main/java/com/mcandle/bleapp/gatt/GattServerManager.kt:275-276 | the stored value, or the "No data" record when none was stored |
| GattServerManager.HandleRead | app/src/main/java/com/mcandle/bleapp/gatt/GattServerManager.kt:265-298 | the response characteristic answers GATT_SUCCESS with the stored value or the default; any other answers GATT_FAILURE with no value |
| GattServerManager.ReadReturnsStored | app/src/main/java/com/mcandle/bleapp/gatt/GattServerManager.kt:274-285 | a read after storing returns what was stored; a read with nothing stored returns "No data" |
| GattServerManager.ReadAfterOrderWrite | app/src/main/java/com/mcandle/bleapp/gatt/GattServerManager.kt:183-285 | a read after an order-channel write decodes to "Connected", "Order received" or the "Data is empty" error record, by the kind of write |
| GattServerManager.GattServer.constructor | app/src/main/java/com/mcandle/bleapp/gatt/GattServerManager.kt:56-61 | no server and no response characteristic |
| GattServerManager.GattServer.StartGattServer | app/src/main/java/com/mcandle/bleapp/gatt/GattServerManager.kt:68-121 | succeeds exactly when the adapter is on, the server opens and the service is added; an opened server gets a fresh empty response slot; an adapter off or a throwing open changes nothing |
| GattServerManager.GattServer.StopGattServer | app/src/main/java/com/mcandle/bleapp/gatt/GattServerManager.kt:126-136 | drops the server and the response slot, unless closing an open server throws |
| GattServerManager.GattServer.SetResponse | app/src/main/java/com/mcandle/bleapp/gatt/GattServerManager.kt:141-144 | stores the data in the response slot if there is one, nothing else changes |
| GattServerManager.GattServer.SendResponse | app/src/main/java/com/mcandle/bleapp/gatt/GattServerManager.kt:278-284 | a response is sent only through an open server |
| GattServerManager.GattServer.ApplyWrite | app/src/main/java/com/mcandle/bleapp/gatt/GattServerManager.kt:188-204 | a write outcome takes effect as the callback, then `setResponse`, then `sendResponse`: at most one event, the stored slot updated only when the outcome stores, one reply only through an open server |
| GattServerManager.GattServer.OnConnectionStateChange | app/src/main/java/com/mcandle/bleapp/gatt/GattServerManager.kt:148-167 | forwards connected and disconnected, ignores other states, never touches the stored response |
| GattServerManager.GattServer.OnCharacteristicWriteRequest | app/src/main/java/com/mcandle/bleapp/gatt/GattServerManager.kt:169-263 | fires the callback, stores the response and sends the reply that `HandleWrite` decides, the reply only through an open server |
| GattServerManager.GattServer.OnCharacteristicReadRequest | app/src/main/java/com/mcandle/bleapp/gatt/GattServerManager.kt:265-298 | sends the reply `HandleRead` decides and never changes the stored response |
| BleAdvertiseViewModel.ViewModel.constructor | app/src/main/java/com/mcandle/bleapp/viewmodel/BleAdvertiseViewModel.kt:24-75 | not advertising, no record, typed suffix empty, not scanning |
| BleAdvertiseViewModel.ViewModel.SetAdvertising | app/src/main/java/com/mcandle/bleapp/viewmodel/BleAdvertiseViewModel.kt:26 | stores exactly the given flag and nothing else changes |
| BleAdvertiseViewModel.ViewModel.SetScanning | app/src/main/java/com/mcandle/bleapp/viewmodel/BleAdvertiseViewModel.kt:77 | stores exactly the given flag and nothing else changes |
| BleAdvertiseViewModel.ViewModel.NotifyMessage | app/src/main/java/com/mcandle/bleapp/viewmodel/BleAdvertiseViewModel.kt:111-113 | emits the message and nothing else changes |
| BleAdvertiseViewModel.ViewModel.UpdateData | app/src/main/java/com/mcandle/bleapp/viewmodel/BleAdvertiseViewModel.kt:31-57 | a card that is not 16 digits emits one message; then a suffix that is not 4 digits emits one message; either keeps the record; otherwise the record is exactly the five values, and a stored record always builds |
| BleAdvertiseViewModel.ViewModel.SetPhoneLast4 | app/src/main/java/com/mcandle/bleapp/viewmodel/BleAdvertiseViewModel.kt:66-73 | stores the trimmed input exactly when it is at most 4 digits (empty included); otherwise emits a message and keeps the value |
| BleAdvertiseViewModel.ViewModel.OnStartClicked | app/src/main/java/com/mcandle/bleapp/viewmodel/BleAdvertiseViewModel.kt:90-98 | with exactly 4 digits stored, sets scanning and requests a scan for them; otherwise emits a message and leaves scanning unchanged |
| BleAdvertiseViewModel.ViewModel.OnScanMatched | app/src/main/java/com/mcandle/bleapp/viewmodel/BleAdvertiseViewModel.kt:129-132 | scanning ends and the match info is emitted |
| BleAdvertiseViewModel.ViewModel.OnScanStopped | app/src/main/java/com/mcandle/bleapp/viewmodel/BleAdvertiseViewModel.kt:134 | scanning ends, nothing else changes |
| BleAdvertiseViewModel.ViewModel.OnScanError | app/src/main/java/com/mcandle/bleapp/viewmodel/BleAdvertiseViewModel.kt:136-139 | scanning ends and the message is emitted |

## Left out

- Strings are sequences of Unicode scalar values, while Java strings are sequences of UTF-16 code units. Lengths and indices differ for characters outside the Basic Multilingual Plane, and a Java string can hold a lone surrogate, which no Dafny `char` represents.
- `Char.isDigit()` and `digitToInt()` are modelled on ASCII `0`..`9`; Kotlin also accepts other Unicode decimal digits.
- `equals(ignoreCase = true)` is modelled with ASCII case folding. Against the ASCII literal `AT+CONNECT` this differs from Kotlin only for the few non-ASCII characters that fold to an ASCII letter.
- Kotlin `isWhitespace` is modelled on the JVM's whitespace and space-separator characters.
- UTF-8 decoding replaces each maximal ill-formed subpart with U+FFFD (section 3.9 of the Unicode Standard). The JVM decoder is taken to behave the same way.
- `Locale` effects of `String.format` are not modelled. `%02X` is taken to print ASCII digits and letters.
- Advertising.ParseUuid: accepts only the canonical 8-4-4-4-12 form. Java's `UUID.fromString` also accepts shorter groups. So for a phone suffix that is not 4 hex digits, MINIMAL fails here where the platform might build a different UUID. Every record the view model stores has 4 digits.
- BackupPacketBuilder.BuildAdvertiseData: collects the exceptions the builder lets escape (`require`, `digitToInt`, `substring`, `fromString`) as error values. Their messages are not modelled.
- IBeaconParser.ParseFrom: scan-record entries with a `null` value are not modelled; every entry has bytes.
- IBeaconParser.ParseFrom: the entry sequence stands for the `SparseArray` in index order, so it is meant to hold strictly ascending company ids, one entry per id. The function itself accepts any order; `ParseFromLowestCompany` states the result for the ascending case, the entry with the smallest qualifying company id.
- Platform types are reduced to the fields the code reads:
  - `AdvertiseData` keeps only its service UUIDs, service-data entries and two flags;
  - a scan result keeps only its manufacturer data;
  - a characteristic is its UUID text, in the lower-case form `UUID.toString()` prints.
- `buildScanSettings` is not modelled: low-latency mode and the SDK-dependent callback type are radio settings with no logic.
- How the OS applies `ScanFilter`s, and the scan callback's `callbackType` (which the source ignores), are not modelled.
- The choice of permission name by SDK level is not modelled; a single granted/denied input stands for it.
- `Handler` scheduling is not modelled. The delay is recorded in the `PostTimeout` request, and the callback is an event method that may run while it is pending.
- `Log` output is not modelled.
- GATT platforms:
  - `sendResponse` delivery is not modelled, and neither is a `SecurityException` it throws; every call is recorded.
  - An `addService` that throws behaves like one that returns false.
  - Building the service object under the service UUID `0000fff0-…`, with its property and permission constants, is not modelled.
  - GattServiceConfig.kt contributes only its UUID constants.
- BleAdvertiseViewModel: `SharedFlow` buffering (replay 0, a small buffer, `DROP_OLDEST`) and `viewModelScope.launch` asynchrony are not modelled; every emission is appended to a log at once.
- BleAdvertiseViewModel: Korean message texts are replaced by tagged messages, and LiveData observers are not modelled.
- BleScannerManager: Korean message texts are replaced by tagged messages.
- AdvertiserManager, SettingsManager and the UI files are not part of this model: activities, fragments, dialogs, timers and preferences.
