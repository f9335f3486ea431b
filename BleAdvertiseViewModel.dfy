/** `BleAdvertiseViewModel`: the validated advertising record, the phone
    suffix typed for scanning, the advertising and scanning flags, and the
    one-shot message, start-request and match streams (as logs). */
module BleAdvertiseViewModel {
  import opened Fallible
  import opened Text
  import opened BackupPacketBuilder

  /** The messages the view model emits on its message stream. */
  datatype UiMessage =
    | CardNumberInvalid      // the card number is not 16 digits
    | PhoneLast4Invalid      // the record's phone suffix is not 4 digits
    | PhoneInputInvalid      // the typed phone suffix is rejected
    | PhoneLast4Incomplete   // start pressed without 4 digits typed
    | Message(text: string)  // a message passed in by a caller

  datatype ScanMatchInfo = ScanMatchInfo(orderNumber: string, phoneLast4: string, major: int, minor: int)

  /** What `setPhoneLast4` accepts once trimmed: up to 4 digits, possibly none. */
  predicate IsPhoneInput(t: string) {
    |t| <= 4 && AllDigits(t)
  }

  class ViewModel {
    var isAdvertising: bool
    var currentData: Option<AdvertiseDataModel>
    var inputPhoneLast4: string
    var isScanning: bool
    var messages: seq<UiMessage>
    var startScanRequests: seq<string>
    var scanMatches: seq<ScanMatchInfo>

    /** The stored record always carries a 16-digit card and a 4-digit
        phone suffix, and the typed suffix is always an accepted input. */
    ghost predicate Valid()
      reads this
    {
      && (currentData.Some? ==>
            IsDigitString(currentData.value.cardNumber, 16) && IsDigitString(currentData.value.phoneLast4, 4))
      && IsPhoneInput(inputPhoneLast4)
    }

    constructor()
      ensures Valid()
      ensures !isAdvertising && currentData.None? && inputPhoneLast4 == "" && !isScanning
      ensures messages == [] && startScanRequests == [] && scanMatches == []
    {
      isAdvertising := false;
      currentData := None;
      inputPhoneLast4 := "";
      isScanning := false;
      messages := [];
      startScanRequests := [];
      scanMatches := [];
    }

    /** `setAdvertising`. */
    method SetAdvertising(on: bool)
      requires Valid()
      modifies this
      ensures Valid()
      ensures isAdvertising == on
      ensures currentData == old(currentData) && inputPhoneLast4 == old(inputPhoneLast4)
      ensures isScanning == old(isScanning) && messages == old(messages)
      ensures startScanRequests == old(startScanRequests) && scanMatches == old(scanMatches)
    {
      isAdvertising := on;
    }

    /** `setScanning`. */
    method SetScanning(on: bool)
      requires Valid()
      modifies this
      ensures Valid()
      ensures isScanning == on
      ensures isAdvertising == old(isAdvertising) && currentData == old(currentData)
      ensures inputPhoneLast4 == old(inputPhoneLast4) && messages == old(messages)
      ensures startScanRequests == old(startScanRequests) && scanMatches == old(scanMatches)
    {
      isScanning := on;
    }

    /** `notifyMessage`. */
    method NotifyMessage(message: UiMessage)
      requires Valid()
      modifies this
      ensures Valid()
      ensures messages == old(messages) + [message]
      ensures isAdvertising == old(isAdvertising) && currentData == old(currentData)
      ensures inputPhoneLast4 == old(inputPhoneLast4) && isScanning == old(isScanning)
      ensures startScanRequests == old(startScanRequests) && scanMatches == old(scanMatches)
    {
      messages := messages + [message];
    }

    /** `updateData`: the card is checked first, then the phone suffix; a
        failed check emits one message and keeps the record, and otherwise
        the record becomes the five given values, which always build. */
    method UpdateData(cardNumber: string, phoneLast4: string, deviceName: string,
                      encoding: EncodingType, advMode: AdvertiseMode)
      requires Valid()
      modifies this
      ensures Valid()
      ensures !IsDigitString(cardNumber, 16) ==>
        currentData == old(currentData) && messages == old(messages) + [CardNumberInvalid]
      ensures IsDigitString(cardNumber, 16) && !IsDigitString(phoneLast4, 4) ==>
        currentData == old(currentData) && messages == old(messages) + [PhoneLast4Invalid]
      ensures IsDigitString(cardNumber, 16) && IsDigitString(phoneLast4, 4) ==>
        && currentData == Some(AdvertiseDataModel(cardNumber, phoneLast4, deviceName, encoding, advMode))
        && messages == old(messages)
      ensures currentData.Some? ==> BuildAdvertiseData(currentData.value).Ok?
      ensures isAdvertising == old(isAdvertising) && inputPhoneLast4 == old(inputPhoneLast4)
      ensures isScanning == old(isScanning)
      ensures startScanRequests == old(startScanRequests) && scanMatches == old(scanMatches)
    {
      if |cardNumber| != 16 || !AllDigits(cardNumber) {
        NotifyMessage(CardNumberInvalid);
      } else if |phoneLast4| != 4 || !AllDigits(phoneLast4) {
        NotifyMessage(PhoneLast4Invalid);
      } else {
        currentData := Some(AdvertiseDataModel(cardNumber, phoneLast4, deviceName, encoding, advMode));
      }
      if currentData.Some? {
        BuildOfValidIdentity(currentData.value);
      }
    }

    /** `setPhoneLast4`: stores the trimmed input when it is at most four
        digits, otherwise emits a message and keeps the stored value. */
    method SetPhoneLast4(v: string)
      requires Valid()
      modifies this
      ensures Valid()
      ensures IsPhoneInput(Trim(v)) ==> inputPhoneLast4 == Trim(v) && messages == old(messages)
      ensures !IsPhoneInput(Trim(v)) ==>
        inputPhoneLast4 == old(inputPhoneLast4) && messages == old(messages) + [PhoneInputInvalid]
      ensures isAdvertising == old(isAdvertising) && currentData == old(currentData)
      ensures isScanning == old(isScanning)
      ensures startScanRequests == old(startScanRequests) && scanMatches == old(scanMatches)
    {
      var t := Trim(v);
      if |t| <= 4 && AllDigits(t) {
        inputPhoneLast4 := t;
      } else {
        messages := messages + [PhoneInputInvalid];
      }
    }

    /** `onStartClicked`: with exactly four digits typed, starts scanning and
        requests a scan for them; otherwise emits a message. */
    method OnStartClicked()
      requires Valid()
      modifies this
      ensures Valid()
      ensures IsDigitString(old(inputPhoneLast4), 4) ==>
        && isScanning
        && startScanRequests == old(startScanRequests) + [old(inputPhoneLast4)]
        && messages == old(messages)
      ensures !IsDigitString(old(inputPhoneLast4), 4) ==>
        && isScanning == old(isScanning)
        && startScanRequests == old(startScanRequests)
        && messages == old(messages) + [PhoneLast4Incomplete]
      ensures isAdvertising == old(isAdvertising) && currentData == old(currentData)
      ensures inputPhoneLast4 == old(inputPhoneLast4) && scanMatches == old(scanMatches)
    {
      var phone4 := inputPhoneLast4;
      if |phone4| != 4 || !AllDigits(phone4) {
        messages := messages + [PhoneLast4Incomplete];
        return;
      }
      SetScanning(true);
      startScanRequests := startScanRequests + [phone4];
    }

    /** `onScanMatched`: scanning ends and the match is published. */
    method OnScanMatched(info: ScanMatchInfo)
      requires Valid()
      modifies this
      ensures Valid()
      ensures !isScanning && scanMatches == old(scanMatches) + [info]
      ensures isAdvertising == old(isAdvertising) && currentData == old(currentData)
      ensures inputPhoneLast4 == old(inputPhoneLast4) && messages == old(messages)
      ensures startScanRequests == old(startScanRequests)
    {
      SetScanning(false);
      scanMatches := scanMatches + [info];
    }

    /** `onScanStopped`: scanning ends. */
    method OnScanStopped()
      requires Valid()
      modifies this
      ensures Valid()
      ensures !isScanning
      ensures isAdvertising == old(isAdvertising) && currentData == old(currentData)
      ensures inputPhoneLast4 == old(inputPhoneLast4) && messages == old(messages)
      ensures startScanRequests == old(startScanRequests) && scanMatches == old(scanMatches)
    {
      SetScanning(false);
    }

    /** `onScanError`: scanning ends and the message is shown. */
    method OnScanError(message: string)
      requires Valid()
      modifies this
      ensures Valid()
      ensures !isScanning && messages == old(messages) + [Message(message)]
      ensures isAdvertising == old(isAdvertising) && currentData == old(currentData)
      ensures inputPhoneLast4 == old(inputPhoneLast4)
      ensures startScanRequests == old(startScanRequests) && scanMatches == old(scanMatches)
    {
      SetScanning(false);
      messages := messages + [Message(message)];
    }
  }
}
