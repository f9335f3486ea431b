/** `GattServerManager`: the order channel. A scanner writes an order id or
    `AT+CONNECT` to one characteristic and reads the last response from
    another. Platform results (adapter state, `openGattServer`,
    `addService`, a `SecurityException` on stop) are inputs; the app
    callbacks and the `sendResponse` calls are logs. */
module GattServerManager {
  import opened Bytes
  import opened Fallible
  import opened Text
  import opened OrderDataParser
  import Utf8

  /** Characteristic UUIDs, as `UUID.toString()` prints them. */
  const OrderWriteUuid := "0000fff1-0000-1000-8000-00805f9b34fb"
  const ResponseReadUuid := "0000fff2-0000-1000-8000-00805f9b34fb"

  /** `BluetoothGatt` status codes and `BluetoothProfile` connection states. */
  const GattSuccess := 0
  const GattFailure := 257
  const StateDisconnected := 0
  const StateConnected := 2

  const ConnectCommand := "AT+CONNECT"

  /** A remote device, by address. */
  datatype Device = Device(address: string)

  /** The `GattServerCallback` calls. */
  datatype ServerEvent =
    | ConnectCommandReceived(device: Device)
    | OrderReceived(orderId: string, additionalData: Option<map<string, string>>)
    | ClientConnected(device: Device)
    | ClientDisconnected(device: Device)

  /** One `sendResponse` call. */
  datatype SentResponse = SentResponse(device: Device, requestId: int, status: int, offset: int, value: Option<seq<Byte>>)

  /** The status and value a request is answered with. */
  datatype Reply = Reply(status: int, value: Option<seq<Byte>>)

  /** The read characteristic; its value is `null` until a response is set. */
  datatype ResponseCharacteristic = ResponseCharacteristic(value: Option<seq<Byte>>)

  /** What `openGattServer` does. */
  datatype OpenOutcome = OpenThrows | OpenReturnsNull | Opened

  /** A write whose trimmed text is `AT+CONNECT`, ignoring case. */
  predicate IsConnectCommand(value: seq<Byte>) {
    EqualsIgnoreCase(Trim(Utf8.Decode(value)), ConnectCommand)
  }

  /** What one write request does: the callback it fires, the response it
      stores, and the reply it sends. */
  datatype WriteOutcome = WriteOutcome(callback: Option<ServerEvent>, stored: Option<seq<Byte>>, reply: Option<Reply>)

  function ReplyIfNeeded(responseNeeded: bool, reply: Reply): (r: Option<Reply>)
    ensures r.Some? <==> responseNeeded
    ensures r.Some? ==> r.value == reply
  {
    if responseNeeded then Some(reply) else None
  }

  /** The decision `onCharacteristicWriteRequest` takes. */
  function HandleWrite(device: Device, characteristicUuid: string, responseNeeded: bool, value: seq<Byte>)
    : (o: WriteOutcome)
    ensures o.reply.Some? <==> responseNeeded
    ensures o.callback.Some? ==> o.callback.value.ConnectCommandReceived? || o.callback.value.OrderReceived?
  {
    if characteristicUuid != OrderWriteUuid then
      WriteOutcome(None, None, ReplyIfNeeded(responseNeeded, Reply(GattFailure, None)))
    else if IsConnectCommand(value) then
      WriteOutcome(Some(ConnectCommandReceived(device)), Some(CreateResponse(true, "Connected")),
                   ReplyIfNeeded(responseNeeded, Reply(GattSuccess, Some(value))))
    else
      match Parse(value)
      case Ok(request) =>
        WriteOutcome(Some(OrderReceived(request.orderId, request.additionalData)),
                     Some(CreateResponse(true, "Order received")),
                     ReplyIfNeeded(responseNeeded, Reply(GattSuccess, Some(value))))
      case Err(failure) =>
        WriteOutcome(None, Some(CreateResponse(false, failure.message.GetOr("Parse error"))),
                     ReplyIfNeeded(responseNeeded, Reply(GattFailure, None)))
  }

  /** A write to any other characteristic fires nothing, stores nothing, and
      is refused when a reply is needed. */
  lemma WriteToOtherCharacteristic(device: Device, characteristicUuid: string, responseNeeded: bool, value: seq<Byte>)
    requires characteristicUuid != OrderWriteUuid
    ensures var o := HandleWrite(device, characteristicUuid, responseNeeded, value);
      && o.callback.None? && o.stored.None?
      && (responseNeeded ==> o.reply == Some(Reply(GattFailure, None)))
  {
  }

  /** `AT+CONNECT` fires the connect callback, stores "Connected", is
      acknowledged with the written value, and is never taken for an order. */
  lemma ConnectCommandWrite(device: Device, responseNeeded: bool, value: seq<Byte>)
    requires IsConnectCommand(value)
    ensures var o := HandleWrite(device, OrderWriteUuid, responseNeeded, value);
      && o.callback == Some(ConnectCommandReceived(device))
      && o.stored == Some(CreateResponse(true, "Connected"))
      && (responseNeeded ==> o.reply == Some(Reply(GattSuccess, Some(value))))
  {
  }

  /** Any other write that parses fires the order callback with the trimmed
      text and no additional data, stores "Order received", and is
      acknowledged with the written value. */
  lemma OrderWrite(device: Device, responseNeeded: bool, value: seq<Byte>)
    requires !IsConnectCommand(value) && Parse(value).Ok?
    ensures var o := HandleWrite(device, OrderWriteUuid, responseNeeded, value);
      && o.callback == Some(OrderReceived(Trim(Utf8.Decode(value)), None))
      && o.stored == Some(CreateResponse(true, "Order received"))
      && (responseNeeded ==> o.reply == Some(Reply(GattSuccess, Some(value))))
  {
  }

  /** A write that does not parse — exactly one whose text is all
      whitespace — fires nothing, stores the failure with the parser's own
      message (the "Parse error" fallback is never used), and is refused. */
  lemma FailedOrderWrite(device: Device, responseNeeded: bool, value: seq<Byte>)
    requires Parse(value).Err?
    ensures Trim(Utf8.Decode(value)) == []
    ensures var o := HandleWrite(device, OrderWriteUuid, responseNeeded, value);
      && o.callback.None?
      && o.stored == Some(CreateResponse(false, EmptyDataMessage))
      && (responseNeeded ==> o.reply == Some(Reply(GattFailure, None)))
  {
    assert !IsConnectCommand(value) by {
      assert |Trim(Utf8.Decode(value))| != |ConnectCommand|;
    }
  }

  /** `setResponse` on the characteristic slot: no-op when there is no characteristic. */
  function Store(slot: Option<ResponseCharacteristic>, data: seq<Byte>): (r: Option<ResponseCharacteristic>)
    ensures slot.None? ==> r.None?
    ensures slot.Some? ==> r == Some(ResponseCharacteristic(Some(data)))
  {
    match slot
    case None => None
    case Some(_) => Some(ResponseCharacteristic(Some(data)))
  }

  function StoreOutcome(slot: Option<ResponseCharacteristic>, stored: Option<seq<Byte>>): Option<ResponseCharacteristic> {
    if stored.Some? then Store(slot, stored.value) else slot
  }

  /** The value a read of the response characteristic returns. */
  function StoredOrDefault(slot: Option<ResponseCharacteristic>): (r: seq<Byte>)
    ensures slot.Some? && slot.value.value.Some? ==> r == slot.value.value.value
    ensures !(slot.Some? && slot.value.value.Some?) ==> r == CreateResponse(true, "No data")
  {
    if slot.Some? && slot.value.value.Some? then slot.value.value.value
    else CreateResponse(true, "No data")
  }

  /** The decision `onCharacteristicReadRequest` takes. */
  function HandleRead(characteristicUuid: string, slot: Option<ResponseCharacteristic>): (r: Reply)
    ensures characteristicUuid == ResponseReadUuid ==> r == Reply(GattSuccess, Some(StoredOrDefault(slot)))
    ensures characteristicUuid != ResponseReadUuid ==> r == Reply(GattFailure, None)
  {
    if characteristicUuid == ResponseReadUuid then Reply(GattSuccess, Some(StoredOrDefault(slot)))
    else Reply(GattFailure, None)
  }

  /** A read after a stored response returns it; a read with nothing stored
      since the server was started returns "No data". */
  lemma ReadReturnsStored(slot: Option<ResponseCharacteristic>, data: seq<Byte>)
    requires slot.Some?
    ensures HandleRead(ResponseReadUuid, Store(slot, data)) == Reply(GattSuccess, Some(data))
    ensures HandleRead(ResponseReadUuid, Some(ResponseCharacteristic(None)))
      == Reply(GattSuccess, Some(CreateResponse(true, "No data")))
  {
  }

  /** After a write on the order characteristic, a read of the response
      characteristic decodes to the JSON record for that write. */
  lemma ReadAfterOrderWrite(device: Device, responseNeeded: bool, value: seq<Byte>, slot: Option<ResponseCharacteristic>)
    requires slot.Some?
    ensures var o := HandleWrite(device, OrderWriteUuid, responseNeeded, value);
      var text := Utf8.Decode(HandleRead(ResponseReadUuid, StoreOutcome(slot, o.stored)).value.value);
      && (IsConnectCommand(value) ==> text == ResponseText(true, "Connected"))
      && (!IsConnectCommand(value) && Parse(value).Ok? ==> text == ResponseText(true, "Order received"))
      && (!IsConnectCommand(value) && Parse(value).Err? ==> text == ResponseText(false, EmptyDataMessage))
  {
    var o := HandleWrite(device, OrderWriteUuid, responseNeeded, value);
    var stored: seq<Byte>;
    if IsConnectCommand(value) {
      ConnectCommandWrite(device, responseNeeded, value);
      stored := CreateResponse(true, "Connected");
    } else if Parse(value).Ok? {
      OrderWrite(device, responseNeeded, value);
      stored := CreateResponse(true, "Order received");
    } else {
      FailedOrderWrite(device, responseNeeded, value);
      stored := CreateResponse(false, EmptyDataMessage);
    }
    assert StoreOutcome(slot, o.stored) == Store(slot, stored);
    ReadReturnsStored(slot, stored);
  }

  class GattServer {
    /** `bluetoothGattServer != null`. */
    var serverOpen: bool
    var responseCharacteristic: Option<ResponseCharacteristic>
    var events: seq<ServerEvent>
    var sent: seq<SentResponse>

    constructor()
      ensures !serverOpen && responseCharacteristic.None? && events == [] && sent == []
    {
      serverOpen := false;
      responseCharacteristic := None;
      events := [];
      sent := [];
    }

    /** `startGattServer`. With the adapter off or `openGattServer` throwing,
        nothing changes; a `null` server is recorded; an opened server gets a
        fresh, empty response characteristic, and the result is whether the
        service was added. */
    method StartGattServer(adapterEnabled: bool, open: OpenOutcome, serviceAdded: bool) returns (ok: bool)
      modifies this
      ensures ok <==> adapterEnabled && open == Opened && serviceAdded
      ensures !adapterEnabled || open == OpenThrows ==> unchanged(this)
      ensures adapterEnabled && open == OpenReturnsNull ==>
        !serverOpen && responseCharacteristic == old(responseCharacteristic)
      ensures adapterEnabled && open == Opened ==>
        serverOpen && responseCharacteristic == Some(ResponseCharacteristic(None))
      ensures events == old(events) && sent == old(sent)
    {
      if !adapterEnabled {
        return false;
      }
      if open == OpenThrows {
        return false;
      }
      serverOpen := open == Opened;
      if !serverOpen {
        return false;
      }
      responseCharacteristic := Some(ResponseCharacteristic(None));
      ok := serviceAdded;
    }

    /** `stopGattServer`: drops the server and the response characteristic,
        unless closing an open server throws, in which case nothing changes. */
    method StopGattServer(closeThrows: bool)
      modifies this
      ensures serverOpen && closeThrows ==> unchanged(this)
      ensures !(serverOpen && closeThrows) ==> !serverOpen && responseCharacteristic.None?
      ensures events == old(events) && sent == old(sent)
    {
      if serverOpen && closeThrows {
        return;
      }
      serverOpen := false;
      responseCharacteristic := None;
    }

    /** `setResponse`. */
    method SetResponse(data: seq<Byte>)
      modifies this
      ensures responseCharacteristic == Store(old(responseCharacteristic), data)
      ensures serverOpen == old(serverOpen) && events == old(events) && sent == old(sent)
    {
      if responseCharacteristic.Some? {
        responseCharacteristic := Some(ResponseCharacteristic(Some(data)));
      }
    }

    /** `bluetoothGattServer?.sendResponse(...)`. */
    method SendResponse(device: Device, requestId: int, status: int, offset: int, value: Option<seq<Byte>>)
      modifies this
      ensures sent == old(sent) + (if serverOpen then [SentResponse(device, requestId, status, offset, value)] else [])
      ensures serverOpen == old(serverOpen) && responseCharacteristic == old(responseCharacteristic)
      ensures events == old(events)
    {
      if serverOpen {
        sent := sent + [SentResponse(device, requestId, status, offset, value)];
      }
    }

    /** `onConnectionStateChange`: forwards connects and disconnects,
        ignores other states, and touches nothing else. */
    method OnConnectionStateChange(device: Device, status: int, newState: int)
      modifies this
      ensures events == old(events) + (
        if newState == StateConnected then [ClientConnected(device)]
        else if newState == StateDisconnected then [ClientDisconnected(device)]
        else [])
      ensures serverOpen == old(serverOpen) && responseCharacteristic == old(responseCharacteristic)
      ensures sent == old(sent)
    {
      if newState == StateConnected {
        events := events + [ClientConnected(device)];
      } else if newState == StateDisconnected {
        events := events + [ClientDisconnected(device)];
      }
    }

    /** Carries out one write outcome in the order the callback does: the app
        callback, then `setResponse`, then `sendResponse`. */
    method ApplyWrite(device: Device, requestId: int, offset: int, o: WriteOutcome)
      modifies this
      ensures events == old(events) + (if o.callback.Some? then [o.callback.value] else [])
      ensures responseCharacteristic == StoreOutcome(old(responseCharacteristic), o.stored)
      ensures sent == old(sent) + (if serverOpen && o.reply.Some?
                                   then [SentResponse(device, requestId, o.reply.value.status, offset, o.reply.value.value)]
                                   else [])
      ensures serverOpen == old(serverOpen)
    {
      if o.callback.Some? {
        events := events + [o.callback.value];
      }
      if o.stored.Some? {
        SetResponse(o.stored.value);
      }
      if o.reply.Some? {
        SendResponse(device, requestId, o.reply.value.status, offset, o.reply.value.value);
      }
    }

    /** `onCharacteristicWriteRequest`: decides with `HandleWrite` and carries
        the decision out. `preparedWrite` is ignored, as in the source. */
    method OnCharacteristicWriteRequest(device: Device, requestId: int, characteristicUuid: string,
                                        preparedWrite: bool, responseNeeded: bool, offset: int, value: seq<Byte>)
      modifies this
      ensures var o := HandleWrite(device, characteristicUuid, responseNeeded, value);
        && events == old(events) + (if o.callback.Some? then [o.callback.value] else [])
        && responseCharacteristic == StoreOutcome(old(responseCharacteristic), o.stored)
        && sent == old(sent) + (if serverOpen && o.reply.Some?
                                then [SentResponse(device, requestId, o.reply.value.status, offset, o.reply.value.value)]
                                else [])
      ensures serverOpen == old(serverOpen)
    {
      var o := HandleWrite(device, characteristicUuid, responseNeeded, value);
      ApplyWrite(device, requestId, offset, o);
    }

    /** `onCharacteristicReadRequest`, carrying out `HandleRead`; a read never
        changes the stored response. */
    method OnCharacteristicReadRequest(device: Device, requestId: int, offset: int, characteristicUuid: string)
      modifies this
      ensures var reply := HandleRead(characteristicUuid, old(responseCharacteristic));
        sent == old(sent) + (if serverOpen then [SentResponse(device, requestId, reply.status, offset, reply.value)] else [])
      ensures serverOpen == old(serverOpen) && responseCharacteristic == old(responseCharacteristic)
      ensures events == old(events)
    {
      if characteristicUuid == ResponseReadUuid {
        var response := if responseCharacteristic.Some? && responseCharacteristic.value.value.Some?
          then responseCharacteristic.value.value.value
          else CreateResponse(true, "No data");
        SendResponse(device, requestId, GattSuccess, offset, Some(response));
      } else {
        SendResponse(device, requestId, GattFailure, offset, None);
      }
    }
  }
}
