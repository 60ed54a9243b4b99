/**
 * Decoding of the SNS-wrapped notification into the object to scan and the
 * webhook to report to (`event_object` and `event_webhook`).
 */
module Events {
  import opened Wrappers
  import Text

  /** The JSON message carried by the SNS record; a field is None when the object lacks it. */
  datatype Message = Message(
    bucket: Option<string>,
    key: Option<string>,      // percent-encoded
    webhook: Option<string>,  // percent-encoded, may hold the ":service" placeholder
    auth: Option<string>)

  /** One record of the event; `message` is None when `Sns.Message` is absent or is not a JSON object. */
  datatype Record = Record(message: Option<Message>)

  datatype Event = Event(records: seq<Record>)

  datatype DecodeError =
    | NoRecords               // the event carries no record
    | MalformedMessage        // the first record has no message, or it is not a JSON object
    | MissingField(name: string)  // the message lacks the named field
    | NoObject                // the bucket or the decoded key is empty
    | NoWebhook               // the decoded webhook URL is empty

  /** The bucket and key of the object to scan. */
  datatype ObjectRef = ObjectRef(bucket: string, key: string)

  /** Where and with which credential scan progress is reported. */
  datatype Webhook = Webhook(url: string, auth: string)

  const ServicePlaceholder: string := ":service"
  const ServiceName: string := "antivirus"

  /** The JSON message of the event's first record; decoding fails when there is no record or no message. */
  function DecodeMessage(event: Event): (r: Result<Message, DecodeError>)
    ensures r.Ok? <==> event.records != [] && event.records[0].message.Some?
    ensures r.Ok? ==> r.value == event.records[0].message.value
  {
    if event.records == [] then Err(NoRecords)
    else if event.records[0].message.None? then Err(MalformedMessage)
    else Ok(event.records[0].message.value)
  }

  /**
   * `event_object`: the bucket as sent and the key percent-decoded by
   * `unquote`; an empty bucket or an empty decoded key is rejected.
   */
  function EventObject(event: Event, unquote: string -> string): (r: Result<ObjectRef, DecodeError>)
    ensures r.Ok? ==> r.value.bucket != "" && r.value.key != ""
    ensures r.Ok? <==>
      && DecodeMessage(event).Ok?
      && DecodeMessage(event).value.bucket.Some?
      && DecodeMessage(event).value.key.Some?
      && DecodeMessage(event).value.bucket.value != ""
      && unquote(DecodeMessage(event).value.key.value) != ""
    ensures r.Ok? ==>
      r.value == ObjectRef(DecodeMessage(event).value.bucket.value, unquote(DecodeMessage(event).value.key.value))
    ensures r == Err(NoObject) <==>
      && DecodeMessage(event).Ok?
      && DecodeMessage(event).value.bucket.Some?
      && DecodeMessage(event).value.key.Some?
      && (DecodeMessage(event).value.bucket.value == ""
          || unquote(DecodeMessage(event).value.key.value) == "")
  {
    match DecodeMessage(event)
    case Err(e) => Err(e)
    case Ok(message) =>
      if message.bucket.None? then Err(MissingField("bucket"))
      else if message.key.None? then Err(MissingField("key"))
      else
        var bucket := message.bucket.value;
        var key := unquote(message.key.value);
        if bucket == "" || key == "" then Err(NoObject)
        else Ok(ObjectRef(bucket, key))
  }

  /** The webhook URL with every service placeholder replaced by the service name. */
  function ResolveWebhook(url: string): (r: string)
    ensures !Text.Contains(r, ServicePlaceholder)
    ensures r == "" <==> url == ""
    ensures !Text.Contains(url, ServicePlaceholder) ==> r == url
  {
    Text.ReplaceAllRemovesPattern(url, ServicePlaceholder, ServiceName);
    Text.ReplaceAllEmpty(url, ServicePlaceholder, ServiceName);
    assert !Text.Contains(url, ServicePlaceholder) ==> Text.ReplaceAll(url, ServicePlaceholder, ServiceName) == url by {
      if !Text.Contains(url, ServicePlaceholder) {
        Text.ReplaceAllIdentity(url, ServicePlaceholder, ServiceName);
      }
    }
    Text.ReplaceAll(url, ServicePlaceholder, ServiceName)
  }

  /**
   * Each placeholder becomes the service name: the text before the first
   * placeholder is kept, the placeholder is replaced, and the rest is
   * resolved in turn.
   */
  lemma ResolveWebhookAtPlaceholder(before: string, after: string)
    requires !Text.Contains(before, ServicePlaceholder)
    ensures ResolveWebhook(before + ServicePlaceholder + after) == before + ServiceName + ResolveWebhook(after)
  {
    var s := before + ServicePlaceholder + after;
    var n := |ServicePlaceholder|;
    forall i | 0 <= i < |before| ensures !Text.OccursAt(s, ServicePlaceholder, i) {
      if i + n <= |before| {
        // a window inside `before` is one of its own windows
        assert !Text.OccursAt(before, ServicePlaceholder, i);
        assert s[i..i + n] == before[i..i + n];
      } else {
        // a window reaching into the placeholder would put its ':' at a
        // non-zero offset of ":service", which has no other ':'
        var m := |before| - i;
        assert s[i..i + n][m] == s[|before|] == ':';
        assert ServicePlaceholder[m] != ':';
      }
    }
    Text.ReplaceAllFirstOccurrence(before, ServicePlaceholder, ServiceName, after);
  }

  /** `https://x/` holds no placeholder: its only ':' is the scheme's. */
  lemma ExampleNoPlaceholder()
    ensures !Text.Contains("https://x/", ServicePlaceholder)
  {
    var s := "https://x/";
    forall i: nat | i <= |s| ensures !Text.OccursAt(s, ServicePlaceholder, i) {
      if i + |ServicePlaceholder| <= |s| {
        assert s[i..i + |ServicePlaceholder|][0] == s[i] != ':';
      }
    }
  }

  /**
   * The placeholder of a webhook URL is resolved to the service name; the
   * ':' of the scheme is not mistaken for it.
   */
  lemma ResolveWebhookExample()
    ensures ResolveWebhook("https://x/:service") == "https://x/antivirus"
  {
    ExampleNoPlaceholder();
    ResolveWebhookAtPlaceholder("https://x/", "");
    assert "https://x/" + ServicePlaceholder + "" == "https://x/:service";
    assert ResolveWebhook("") == "";
    assert "https://x/" + ServiceName + ResolveWebhook("") == "https://x/antivirus";
  }

  /**
   * `event_webhook`: the decoded webhook URL with its placeholder resolved
   * and the credential as sent. Both fields are required, and an empty
   * resulting URL is rejected.
   */
  function EventWebhook(event: Event, unquote: string -> string): (r: Result<Webhook, DecodeError>)
    ensures r.Ok? ==> r.value.url != "" && !Text.Contains(r.value.url, ServicePlaceholder)
    ensures r.Ok? <==>
      && DecodeMessage(event).Ok?
      && DecodeMessage(event).value.webhook.Some?
      && DecodeMessage(event).value.auth.Some?
      && unquote(DecodeMessage(event).value.webhook.value) != ""
    ensures r.Ok? ==>
      && r.value.auth == DecodeMessage(event).value.auth.value
      && r.value.url == ResolveWebhook(unquote(DecodeMessage(event).value.webhook.value))
    ensures r == Err(NoWebhook) <==>
      && DecodeMessage(event).Ok?
      && DecodeMessage(event).value.webhook.Some?
      && DecodeMessage(event).value.auth.Some?
      && unquote(DecodeMessage(event).value.webhook.value) == ""
  {
    match DecodeMessage(event)
    case Err(e) => Err(e)
    case Ok(message) =>
      if message.webhook.None? then Err(MissingField("webhook"))
      else
        var url := ResolveWebhook(unquote(message.webhook.value));
        if message.auth.None? then Err(MissingField("auth"))
        else if url == "" then Err(NoWebhook)
        else Ok(Webhook(url, message.auth.value))
  }
}
