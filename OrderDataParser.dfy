/** `OrderDataParser`: the written bytes, decoded and trimmed, are the order
    id; responses are JSON-shaped records built by text substitution. */
module OrderDataParser {
  import opened Bytes
  import opened Fallible
  import opened Text
  import Utf8

  datatype OrderRequest = OrderRequest(orderId: string, additionalData: Option<map<string, string>> := None)

  /** The `IllegalArgumentException` `parse` throws, with its message. */
  datatype ParseFailure = ParseFailure(message: Option<string>)

  const EmptyDataMessage := "Data is empty"

  /** `parse`: rejects input that decodes to whitespace only; otherwise the
      trimmed text is the order id and there is no additional data. */
  function Parse(data: seq<Byte>): (r: Result<OrderRequest, ParseFailure>)
    ensures r.Err? <==> IsBlank(Utf8.Decode(data))
    ensures r.Err? ==> r.error == ParseFailure(Some(EmptyDataMessage))
    ensures r.Ok? ==> r.value.orderId == Trim(Utf8.Decode(data)) && r.value.additionalData.None?
  {
    var text := Trim(Utf8.Decode(data));
    if text == [] then Err(ParseFailure(Some(EmptyDataMessage)))
    else Ok(OrderRequest(text, None))
  }

  /** An accepted order id is never empty and has no whitespace at either end. */
  lemma OrderIdIsTrimmed(data: seq<Byte>)
    requires Parse(data).Ok?
    ensures var id := Parse(data).value.orderId;
      id != [] && !IsWhitespace(id[0]) && !IsWhitespace(id[|id| - 1])
  {
    var text := Trim(Utf8.Decode(data));
    assert Parse(data) == Ok(OrderRequest(text, None));
  }

  /** Parsing the UTF-8 bytes of text gives the trimmed text, or the failure
      exactly when the text is all whitespace. */
  lemma ParseOfText(s: string)
    ensures Parse(Utf8.Encode(s)).Err? <==> Trim(s) == []
    ensures Parse(Utf8.Encode(s)).Ok? ==> Parse(Utf8.Encode(s)).value.orderId == Trim(s)
  {
    Utf8.DecodeEncode(s);
  }

  /** `parse` is idempotent: the bytes of an accepted order id parse to the same request. */
  lemma ParseIdempotent(data: seq<Byte>)
    requires Parse(data).Ok?
    ensures Parse(Utf8.Encode(Parse(data).value.orderId)) == Parse(data)
  {
    var id := Parse(data).value.orderId;
    var bytes := Utf8.Encode(id);
    Utf8.DecodeEncode(id);
    TrimOfTrimmed(id);
    assert Trim(Utf8.Decode(bytes)) == id;
  }

  function StatusWord(success: bool): string {
    if success then "success" else "error"
  }

  /** The text `createResponse` substitutes into; `message` goes in verbatim. */
  function ResponseText(success: bool, message: string): (t: string)
    ensures t == ResponsePrefix(success) + message + ResponseSuffix
  {
    "{\"status\": \"" + StatusWord(success) + "\", \"message\": \"" + message + "\"}"
  }

  function ResponsePrefix(success: bool): (p: string)
    ensures |p| == (if success then 34 else 32)
  {
    "{\"status\": \"" + StatusWord(success) + "\", \"message\": \""
  }

  const ResponseSuffix := "\"}"

  /** `createResponse`: the UTF-8 bytes of the record; the message defaults to empty. */
  function CreateResponse(success: bool, message: string := ""): (r: seq<Byte>)
    ensures Utf8.Decode(r) == ResponseText(success, message)
    ensures r == Utf8.Encode(ResponseText(success, message))
  {
    Utf8.DecodeEncode(ResponseText(success, message));
    Utf8.Encode(ResponseText(success, message))
  }

  /** Characters a JSON string may hold without an escape (section 7 of RFC 8259). */
  predicate IsUnescapedChar(c: char) {
    c != '"' && c != '\\' && c >= ' '
  }

  predicate IsPlainMessage(m: string) {
    forall i :: 0 <= i < |m| ==> IsUnescapedChar(m[i])
  }

  /** A reader for the record: the status word and the message, accepted
      only when the message is a JSON string body that needs no escape. */
  function ReadResponse(t: string): (r: Option<(bool, string)>)
    ensures r.Some? ==> ResponseText(r.value.0, r.value.1) == t && IsPlainMessage(r.value.1)
  {
    if ReadsAs(t, true) then Some((true, t[34..|t| - 2]))
    else if ReadsAs(t, false) then Some((false, t[32..|t| - 2]))
    else None
  }

  predicate ReadsAs(t: string, success: bool) {
    var p := ResponsePrefix(success);
    && |t| >= |p| + 2
    && t[..|p|] == p && t[|t| - 2..] == ResponseSuffix
    && IsPlainMessage(t[|p|..|t| - 2])
  }

  lemma ReadsAsResponse(success: bool, message: string, other: bool)
    ensures ReadsAs(ResponseText(success, message), other) <==> other == success && IsPlainMessage(message)
  {
    var t := ResponseText(success, message);
    var p := ResponsePrefix(success);
    assert t[..|p|] == p;
    assert t[|t| - 2..] == ResponseSuffix;
    assert t[|p|..|t| - 2] == message;
    if other != success {
      // The status words differ at the first letter, position 12.
      assert t[12] == (if success then 's' else 'e');
      assert ResponsePrefix(other)[12] == (if other then 's' else 'e');
    }
  }

  /** The record is read back exactly when the message needs no escaping:
      a message holding a quote, a backslash or a control character breaks it. */
  lemma ReadCreatedResponse(success: bool, message: string)
    ensures ReadResponse(ResponseText(success, message)) == Some((success, message)) <==> IsPlainMessage(message)
    ensures !IsPlainMessage(message) ==> ReadResponse(ResponseText(success, message)).None?
  {
    ReadsAsResponse(success, message, true);
    ReadsAsResponse(success, message, false);
    var t := ResponseText(success, message);
    if IsPlainMessage(message) {
      assert t[|ResponsePrefix(success)|..|t| - 2] == message;
    }
  }
}
