/** `BleScannerManager`: the scan state machine that looks for the iBeacon
    frame carrying the expected phone suffix, and the per-mode filter list
    it hands to the radio. The radio, the permission check and the
    `Handler` timeout are inputs to event methods; the listener and the
    radio are logs. */
module BleScannerManager {
  import opened Fallible
  import opened Bytes
  import opened IBeaconParser
  import opened Text
  import Utf8

  datatype ScanMode = ALL | RFSTAR_ONLY | IBEACON_RFSTAR | IBEACON_APPLE | IBEACON_ANY

  /** Manufacturer company identifiers the filters select. */
  const Rfstar := 0x5246
  const Apple := 0x004C

  /** The default for `maxTimeoutMs`: one minute. */
  const DefaultTimeoutMs := 60000

  /** `ScanFilter.Builder().setManufacturerData(companyId, data, mask)`. */
  datatype ScanFilter = ManufacturerFilter(companyId: int, data: seq<Byte>, mask: seq<Byte>)

  /** A filter on the iBeacon type and length bytes under one company. */
  function IBeaconFilter(companyId: int): (f: ScanFilter)
    ensures f.companyId == companyId
    ensures f.data == [0x02, 0x15] && f.mask == [0xFF, 0xFF]
  {
    ManufacturerFilter(companyId, [0x02, 0x15], [0xFF, 0xFF])
  }

  /** `buildScanFilters`, one row per mode. */
  function BuildScanFilters(mode: ScanMode): (filters: seq<ScanFilter>)
    ensures filters == [] <==> mode == ALL
    ensures mode == RFSTAR_ONLY ==> filters == [ManufacturerFilter(Rfstar, [], [])]
    ensures mode == IBEACON_RFSTAR ==> filters == [IBeaconFilter(Rfstar)]
    ensures mode == IBEACON_APPLE ==> filters == [IBeaconFilter(Apple)]
    ensures mode == IBEACON_ANY ==> filters == [IBeaconFilter(Rfstar), IBeaconFilter(Apple)]
  {
    match mode
    case ALL => []
    case RFSTAR_ONLY => [ManufacturerFilter(Rfstar, [], [])]
    case IBEACON_RFSTAR => [IBeaconFilter(Rfstar)]
    case IBEACON_APPLE => [IBeaconFilter(Apple)]
    case IBEACON_ANY => [IBeaconFilter(Rfstar), IBeaconFilter(Apple)]
  }

  predicate IsIBeaconMode(mode: ScanMode) {
    mode == IBEACON_RFSTAR || mode == IBEACON_APPLE || mode == IBEACON_ANY
  }

  /** The iBeacon modes ask the radio for exactly the prefix `parseFrom`
      tests, under RFSTAR or Apple: every entry `IsIBeaconEntry` accepts
      starts with the filter's fully masked data. The other modes constrain
      no payload. */
  lemma IBeaconModesFilterOnPrefix(mode: ScanMode)
    ensures IsIBeaconMode(mode) ==> forall f :: f in BuildScanFilters(mode) ==>
      && (f.companyId == Rfstar || f.companyId == Apple)
      && f.data == [0x02, 0x15] && f.mask == [0xFF, 0xFF]
    ensures IsIBeaconMode(mode) ==> forall f, e :: f in BuildScanFilters(mode) && IsIBeaconEntry(e) ==>
      |e.data| >= |f.data| && e.data[..|f.data|] == f.data
    ensures !IsIBeaconMode(mode) ==> forall f :: f in BuildScanFilters(mode) ==>
      f.companyId == Rfstar && f.data == [] && f.mask == []
  {
  }

  /** IBEACON_ANY is the RFSTAR filter followed by the Apple filter. */
  lemma IBeaconAnyIsBoth()
    ensures BuildScanFilters(IBEACON_ANY) == BuildScanFilters(IBEACON_RFSTAR) + BuildScanFilters(IBEACON_APPLE)
  {
  }

  /** The part of a `ScanResult` the scanner reads: the manufacturer-specific
      data of its scan record, `None` when there is no record. */
  datatype ScanResult = ScanResult(manufacturerData: Option<seq<ManufacturerEntry>>)

  /** `IBeaconParser.parseFrom` on a scan result. */
  function FrameOf(result: ScanResult): (r: Option<IBeaconFrame>)
    ensures result.manufacturerData.None? ==> r.None?
    ensures result.manufacturerData.Some? ==> r == ParseFrom(result.manufacturerData.value)
  {
    match result.manufacturerData
    case None => None
    case Some(entries) => ParseFrom(entries)
  }

  /** The match rule: a target phone suffix was given, the frame carries it,
      and no minor is expected or the frame carries the expected one. */
  predicate IsMatch(frame: IBeaconFrame, expectedPhoneLast4: Option<string>, expectedMinor: Option<int>) {
    && expectedPhoneLast4.Some? && frame.phoneLast4 == expectedPhoneLast4.value
    && (expectedMinor.None? || frame.minor == expectedMinor.value)
  }

  /** The frame a result matches with, if any. */
  function MatchOf(result: ScanResult, expectedPhoneLast4: Option<string>, expectedMinor: Option<int>)
    : (r: Option<IBeaconFrame>)
    ensures r.Some? <==> FrameOf(result).Some? && IsMatch(FrameOf(result).value, expectedPhoneLast4, expectedMinor)
    ensures r.Some? ==> r.value == FrameOf(result).value
  {
    var frame := FrameOf(result);
    if frame.Some? && IsMatch(frame.value, expectedPhoneLast4, expectedMinor) then frame else None
  }

  /** Without a target phone suffix nothing matches, whatever the radio hears. */
  lemma NoTargetNoMatch(result: ScanResult, expectedMinor: Option<int>)
    ensures MatchOf(result, None, expectedMinor).None?
  {
  }

  /** A frame built from an order number, the target suffix and the expected
      minor matches, under any manufacturer id. */
  lemma BuiltFrameMatches(companyId: int, order: string, phone: string, major: int, minor: int, txPower: int)
    requires |order| <= 12 && Utf8.IsAscii(order) && (order == [] || !IsWhitespace(order[|order| - 1]))
    requires |phone| == 4 && Utf8.IsAscii(phone)
    requires 0 <= major < 0x10000 && 0 <= minor < 0x10000 && -0x80 <= txPower < 0x80
    ensures var result := ScanResult(Some([ManufacturerEntry(companyId, IBeaconPayload(order, phone, major, minor, txPower))]));
      && MatchOf(result, Some(phone), Some(minor)).Some?
      && MatchOf(result, Some(phone), None).Some?
      && MatchOf(result, Some(phone), Some(minor)).value.orderNumber == order
  {
    var payload := IBeaconPayload(order, phone, major, minor, txPower);
    ParseIBeaconPayload(order, phone, major, minor, txPower, companyId);
    var entries := [ManufacturerEntry(companyId, payload)];
    assert IsIBeaconEntry(entries[0]);
  }

  datatype InfoMessage =
    | ScannerUnavailable         // there is no LE scanner
    | PermissionRequired         // the scan permission is not granted
    | ScanStarted(mode: ScanMode)
    | StartSecurityException     // the radio refused the start
    | NotFoundAfterTimeout       // the timeout passed with no match
    | StopPermissionError        // the radio refused the stop
    | ScanFailed(errorCode: int)

  /** The listener's three callbacks. */
  datatype ListenerEvent =
    | DeviceFound(result: ScanResult)
    | Matched(frame: IBeaconFrame)
    | Info(message: InfoMessage)

  /** What the manager asks of the radio and of its `Handler`. */
  datatype RadioRequest =
    | StartRadioScan(filters: seq<ScanFilter>)
    | StopRadioScan
    | PostTimeout(delayMs: int)
    | CancelTimeouts

  /** The log entries `stopScan` adds to the listener when it runs while scanning. */
  function StopEvents(stopThrows: bool): (es: seq<ListenerEvent>)
    ensures |es| <= 1
    ensures es != [] <==> stopThrows
    ensures stopThrows ==> es == [Info(StopPermissionError)]
  {
    if stopThrows then [Info(StopPermissionError)] else []
  }

  class ScannerManager {
    /** Whether the adapter exposes an LE scanner. */
    const scannerAvailable: bool
    const expectedMinor: Option<int>
    const maxTimeoutMs: int
    const mode: ScanMode

    var isScanning: bool
    var matched: bool
    var expectedPhoneLast4: Option<string>
    /** A posted timeout callback that has neither run nor been removed. */
    var timeoutPending: bool

    var events: seq<ListenerEvent>
    var requests: seq<RadioRequest>

    /** A scan in progress has a scanner and its timeout pending; a timeout
        is pending only during a scan. */
    ghost predicate TimerTracksScan()
      reads this
    {
      && (isScanning ==> scannerAvailable)
      && (timeoutPending <==> isScanning)
    }

    /** Besides, a scan in progress has not matched yet: a match stops it. */
    ghost predicate Valid()
      reads this
    {
      TimerTracksScan() && (isScanning ==> !matched)
    }

    constructor(scannerAvailable: bool, expectedMinor: Option<int> := None,
                maxTimeoutMs: int := DefaultTimeoutMs, mode: ScanMode := ALL)
      ensures Valid()
      ensures this.scannerAvailable == scannerAvailable && this.expectedMinor == expectedMinor
      ensures this.maxTimeoutMs == maxTimeoutMs && this.mode == mode
      ensures !isScanning && !matched && expectedPhoneLast4.None? && !timeoutPending
      ensures events == [] && requests == []
    {
      this.scannerAvailable := scannerAvailable;
      this.expectedMinor := expectedMinor;
      this.maxTimeoutMs := maxTimeoutMs;
      this.mode := mode;
      isScanning := false;
      matched := false;
      expectedPhoneLast4 := None;
      timeoutPending := false;
      events := [];
      requests := [];
    }

    /** `startScan`. Ignored during a scan; otherwise it resets the match and
        records the target before checking the scanner and the permission,
        and the scan starts only when the radio accepts it. */
    method StartScan(phoneLast4: Option<string>, permissionGranted: bool, startThrows: bool)
      requires Valid()
      modifies this
      ensures Valid()
      ensures old(isScanning) ==> unchanged(this)
      ensures !old(isScanning) ==>
        && !matched && expectedPhoneLast4 == phoneLast4
        && (isScanning <==> scannerAvailable && permissionGranted && !startThrows)
        && events == old(events) + [Info(
             if !scannerAvailable then ScannerUnavailable
             else if !permissionGranted then PermissionRequired
             else if startThrows then StartSecurityException
             else ScanStarted(mode))]
        && requests == old(requests) + (if isScanning then [StartRadioScan(BuildScanFilters(mode)), PostTimeout(maxTimeoutMs)] else [])
    {
      if isScanning {
        return;
      }
      matched := false;
      expectedPhoneLast4 := phoneLast4;
      if !scannerAvailable {
        events := events + [Info(ScannerUnavailable)];
        return;
      }
      if !permissionGranted {
        events := events + [Info(PermissionRequired)];
        return;
      }
      var filters := BuildScanFilters(mode);
      if startThrows {
        events := events + [Info(StartSecurityException)];
        return;
      }
      requests := requests + [StartRadioScan(filters)];
      isScanning := true;
      events := events + [Info(ScanStarted(mode))];
      requests := requests + [PostTimeout(maxTimeoutMs)];
      timeoutPending := true;
    }

    /** `stopScan`. A no-op when not scanning; otherwise the scan ends and
        every pending timeout is removed even when the radio refuses the stop. */
    method StopScan(stopThrows: bool)
      requires TimerTracksScan()
      modifies this
      ensures TimerTracksScan()
      ensures old(Valid()) || old(isScanning) ==> Valid()
      ensures !old(isScanning) ==> unchanged(this)
      ensures old(isScanning) ==>
        && !isScanning && !timeoutPending
        && matched == old(matched) && expectedPhoneLast4 == old(expectedPhoneLast4)
        && events == old(events) + StopEvents(stopThrows)
        && requests == old(requests) + (if stopThrows then [] else [StopRadioScan]) + [CancelTimeouts]
    {
      if !isScanning {
        return;
      }
      if scannerAvailable {
        if stopThrows {
          events := events + [Info(StopPermissionError)];
        } else {
          requests := requests + [StopRadioScan];
        }
      }
      isScanning := false;
      timeoutPending := false;
      requests := requests + [CancelTimeouts];
    }

    /** `onScanResult`. Every result is reported; a matching one records the
        match, is reported and stops the scan; any other result changes no
        state. */
    method OnScanResult(result: Option<ScanResult>, stopThrows: bool)
      requires Valid()
      modifies this
      ensures Valid()
      ensures result.None? ==> unchanged(this)
      ensures result.Some? && MatchOf(result.value, old(expectedPhoneLast4), expectedMinor).None? ==>
        && isScanning == old(isScanning) && matched == old(matched)
        && timeoutPending == old(timeoutPending) && requests == old(requests)
        && events == old(events) + [DeviceFound(result.value)]
      ensures result.Some? && MatchOf(result.value, old(expectedPhoneLast4), expectedMinor).Some? ==>
        && matched && !isScanning && !timeoutPending
        && events == old(events) + [DeviceFound(result.value), Matched(MatchOf(result.value, old(expectedPhoneLast4), expectedMinor).value)]
             + (if old(isScanning) then StopEvents(stopThrows) else [])
        && requests == old(requests)
             + (if old(isScanning) then (if stopThrows then [] else [StopRadioScan]) + [CancelTimeouts] else [])
      ensures expectedPhoneLast4 == old(expectedPhoneLast4)
    {
      if result.None? {
        return;
      }
      events := events + [DeviceFound(result.value)];
      var m := MatchOf(result.value, expectedPhoneLast4, expectedMinor);
      if m.Some? {
        RecordMatch(m.value, stopThrows);
      }
    }

    /** The matching branch of `onScanResult`: records the match, reports the
        frame and stops the scan. */
    method RecordMatch(frame: IBeaconFrame, stopThrows: bool)
      requires Valid()
      modifies this
      ensures Valid()
      ensures matched && !isScanning && !timeoutPending
      ensures expectedPhoneLast4 == old(expectedPhoneLast4)
      ensures events == old(events) + [Matched(frame)] + (if old(isScanning) then StopEvents(stopThrows) else [])
      ensures requests == old(requests)
        + (if old(isScanning) then (if stopThrows then [] else [StopRadioScan]) + [CancelTimeouts] else [])
    {
      matched := true;
      events := events + [Matched(frame)];
      StopScan(stopThrows);
    }

    /** `onScanFailed`: reports the code and changes nothing else. */
    method OnScanFailed(errorCode: int)
      requires Valid()
      modifies this
      ensures Valid()
      ensures isScanning == old(isScanning) && matched == old(matched)
      ensures expectedPhoneLast4 == old(expectedPhoneLast4) && timeoutPending == old(timeoutPending)
      ensures events == old(events) + [Info(ScanFailed(errorCode))] && requests == old(requests)
    {
      events := events + [Info(ScanFailed(errorCode))];
    }

    /** The posted timeout callback. It only runs while pending, so the scan
        is still on and has not matched: it always stops the scan and
        reports that nothing was found. */
    method OnTimeout(stopThrows: bool)
      requires Valid() && timeoutPending
      modifies this
      ensures Valid()
      ensures !isScanning && !timeoutPending
      ensures matched == old(matched) && expectedPhoneLast4 == old(expectedPhoneLast4)
      ensures events == old(events) + StopEvents(stopThrows) + [Info(NotFoundAfterTimeout)]
      ensures requests == old(requests) + (if stopThrows then [] else [StopRadioScan]) + [CancelTimeouts]
    {
      if isScanning {
        StopScan(stopThrows);
        if matched {
          // The source reports a stop after a match here; Valid() rules it out.
          assert false;
        }
        events := events + [Info(NotFoundAfterTimeout)];
      }
    }
  }
}
