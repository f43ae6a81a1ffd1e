/** The delivery logger: it turns one email-event notification into an ordered log
    record and appends that record to a log stream named after the day and the message. */
module DeliveryLogger {
  import opened PyJson
  import opened OrderedDict
  import opened Logging

  /** The bound of the put loop. */
  const MaxPutAttempts := 3

  // ---------------------------------------------------------------------------
  // Event kinds and the dispatch table
  // ---------------------------------------------------------------------------

  datatype Kind = Bounce | Complaint | Delivery | DeliveryDelay | Reject | Click | Open | RenderingFailure

  /** The key of each kind in the dispatch table. */
  function KindName(k: Kind): string {
    match k
    case Bounce => "Bounce"
    case Complaint => "Complaint"
    case Delivery => "Delivery"
    case DeliveryDelay => "DeliveryDelay"
    case Reject => "Reject"
    case Click => "Click"
    case Open => "Open"
    case RenderingFailure => "Rendering Failure"
  }

  /** Lookup of a string event type in the dispatch table. */
  function KindOfName(s: string): (r: Option<Kind>)
    ensures r.Some? ==> KindName(r.value) == s
    ensures forall k :: KindName(k) == s ==> r == Some(k)
  {
    if s == "Bounce" then Some(Bounce)
    else if s == "Complaint" then Some(Complaint)
    else if s == "Delivery" then Some(Delivery)
    else if s == "DeliveryDelay" then Some(DeliveryDelay)
    else if s == "Reject" then Some(Reject)
    else if s == "Click" then Some(Click)
    else if s == "Open" then Some(Open)
    else if s == "Rendering Failure" then Some(RenderingFailure)
    else None
  }

  /** The table knows the rendering failure only under the spelling with a space. */
  lemma RenderingFailureSpelling()
    ensures KindOfName("Rendering Failure") == Some(RenderingFailure)
    ensures KindOfName("RenderingFailure") == None
  {
  }

  /** `event_type in event_actions`: `None`, numbers and other strings are simply absent;
      a list or an object cannot be hashed, so the membership test raises. */
  function Dispatch(eventType: Json): (r: Result<Option<Kind>>)
    ensures r.Err? <==> !Hashable(eventType)
    ensures r.Ok? && r.value.Some? <==> eventType.JStr? && (exists k :: KindName(k) == eventType.s)
    ensures r.Ok? && r.value.Some? ==> eventType == JStr(KindName(r.value.value))
  {
    if !Hashable(eventType) then Err(TypeError)
    else if eventType.JStr? then Ok(KindOfName(eventType.s))
    else Ok(None)
  }

  // ---------------------------------------------------------------------------
  // The eight extractors
  // ---------------------------------------------------------------------------

  /** The key under which the message carries each kind's detail object. */
  function DetailKey(k: Kind): string {
    match k
    case Bounce => "bounce"
    case Complaint => "complaint"
    case Delivery => "delivery"
    case DeliveryDelay => "deliveryDelay"
    case Reject => "reject"
    case Click => "click"
    case Open => "open"
    case RenderingFailure => "failure"
  }

  /** `message.get(key)` is a dictionary, so the extractor's own `.get` calls succeed. */
  predicate HasDetail(message: Json, key: string) {
    message.JObj? && Field(message, key).JObj?
  }

  /** The keys each extractor returns, in the order of its dictionary literal. */
  function KindKeys(k: Kind): seq<string> {
    match k
    case Bounce => ["BounceSummary", "ReportingMTA", "BounceType", "BounceSubType", "MessageTime"]
    case Complaint => ["ComplaintSummary", "FeedbackId", "FeedbackType", "MessageTime"]
    case Delivery => ["DestinationAddress", "ReportingMTA", "SMTPResponse", "MessageTime"]
    case DeliveryDelay => ["DelayedRecipients", "ExpirationTime", "DelayType", "MessageTime"]
    case Reject => ["Reason"]
    case Click => ["IPAddress", "Link", "LinkTags", "UserAgent", "MessageTime"]
    case Open => ["IPAddress", "UserAgent", "MessageTime"]
    case RenderingFailure => ["ErrorMessage", "TemplateName"]
  }

  /** The detail field each kind copies into `MessageTime`, for the kinds that have one. */
  function TimeField(k: Kind): Option<string> {
    match k
    case Bounce => Some("timestamp")
    case Complaint => Some("arrivalDate")
    case Delivery => Some("timestamp")
    case DeliveryDelay => Some("timestamp")
    case Click => Some("timestamp")
    case Open => Some("timestamp")
    case _ => None
  }

  /** How an extractor fills one output key from its detail dictionary `d`. */
  datatype Encoding =
    | Copy                  // `d.get(field)`
    | CopyOr(default: Json) // `d.get(field, default)`
    | Dumps                 // `json.dumps(d.get(field))`
    | Str                   // `str(d.get(field))`

  /** One output key of an extractor, the detail field it reads, and how it renders it. */
  datatype Column = Column(key: string, field: string, encoding: Encoding)

  /** The per-kind field table: each extractor's output keys in order, with their sources. */
  function Columns(k: Kind): seq<Column> {
    match k
    case Bounce => [Column("BounceSummary", "bouncedRecipients", Dumps),
                    Column("ReportingMTA", "reportingMTA", CopyOr(JStr(""))),
                    Column("BounceType", "bounceType", Copy),
                    Column("BounceSubType", "bounceSubType", Copy),
                    Column("MessageTime", "timestamp", Copy)]
    case Complaint => [Column("ComplaintSummary", "complainedRecipients", Dumps),
                       Column("FeedbackId", "feedbackId", Copy),
                       Column("FeedbackType", "complaintFeedbackType", Copy),
                       Column("MessageTime", "arrivalDate", Copy)]
    case Delivery => [Column("DestinationAddress", "recipients", Copy),
                      Column("ReportingMTA", "reportingMTA", CopyOr(JStr(""))),
                      Column("SMTPResponse", "smtpResponse", Copy),
                      Column("MessageTime", "timestamp", Copy)]
    case DeliveryDelay => [Column("DelayedRecipients", "delayedRecipients", Str),
                           Column("ExpirationTime", "expirationTime", Copy),
                           Column("DelayType", "delayType", Copy),
                           Column("MessageTime", "timestamp", Copy)]
    case Reject => [Column("Reason", "reason", Copy)]
    case Click => [Column("IPAddress", "ipAddress", Copy),
                   Column("Link", "link", Copy),
                   Column("LinkTags", "linkTags", Dumps),
                   Column("UserAgent", "userAgent", Copy),
                   Column("MessageTime", "timestamp", Copy)]
    case Open => [Column("IPAddress", "ipAddress", Copy),
                  Column("UserAgent", "userAgent", Copy),
                  Column("MessageTime", "timestamp", Copy)]
    case RenderingFailure => [Column("ErrorMessage", "errorMessage", Copy),
                              Column("TemplateName", "templateName", Copy)]
  }

  /** The value a column takes for the detail dictionary `d`. */
  function Encode(c: Codecs, col: Column, d: Json): Json {
    match col.encoding
    case Copy => Field(d, col.field)
    case CopyOr(default) => FieldOr(d, col.field, default)
    case Dumps => JStr(c.dumps(Field(d, col.field)))
    case Str => JStr(PyStr(c, Field(d, col.field)))
  }

  /** The record the table prescribes for kind `k` and detail dictionary `d`. */
  function Prescribed(k: Kind, d: Json, c: Codecs): (r: Record)
    ensures |r| == |Columns(k)|
    ensures forall i :: 0 <= i < |r| ==> r[i] == (Columns(k)[i].key, Encode(c, Columns(k)[i], d))
  {
    seq(|Columns(k)|, i requires 0 <= i < |Columns(k)| => (Columns(k)[i].key, Encode(c, Columns(k)[i], d)))
  }

  /** The key column of the field table is each extractor's key list. */
  lemma ColumnKeys(k: Kind, d: Json, c: Codecs)
    ensures Keys(Prescribed(k, d, c)) == KindKeys(k)
  {
  }

  /** Which of the names the base record uses occur among a kind's keys: the extractors that
      name `MessageTime` are exactly those with a detail timestamp, only the delivery extractor
      names `DestinationAddress`, and none names another envelope or tag-derived key. */
  predicate OverlapFacts(k: Kind) {
    && ("MessageTime" in KindKeys(k) <==> TimeField(k).Some?)
    && ("DestinationAddress" in KindKeys(k) <==> k == Delivery)
    && "MessageId" !in KindKeys(k) && "EventType" !in KindKeys(k) && "FromAddress" !in KindKeys(k)
    && "Subject" !in KindKeys(k)
    && "SourceIp" !in KindKeys(k) && "ConfigSet" !in KindKeys(k) && "IAMUser" !in KindKeys(k)
  }

  /** One lemma per kind keeps each check small. */
  lemma KindKeysOverlap(k: Kind)
    ensures OverlapFacts(k)
  {
    match k
    case Bounce => KeysOfBounce();
    case Complaint => KeysOfComplaint();
    case Delivery => KeysOfDelivery();
    case DeliveryDelay => KeysOfDeliveryDelay();
    case Reject => KeysOfReject();
    case Click => KeysOfClick();
    case Open => KeysOfOpen();
    case RenderingFailure => KeysOfRenderingFailure();
  }

  lemma KeysOfBounce() ensures OverlapFacts(Bounce) { }
  lemma KeysOfComplaint() ensures OverlapFacts(Complaint) { }
  lemma KeysOfDelivery() ensures OverlapFacts(Delivery) { }
  lemma KeysOfDeliveryDelay() ensures OverlapFacts(DeliveryDelay) { }
  lemma KeysOfReject() ensures OverlapFacts(Reject) { }
  lemma KeysOfClick() ensures OverlapFacts(Click) { }
  lemma KeysOfOpen() ensures OverlapFacts(Open) { }
  lemma KeysOfRenderingFailure() ensures OverlapFacts(RenderingFailure) { }


  function HandleBounce(message: Json, c: Codecs): (r: Result<Record>)
    ensures r.Ok? <==> HasDetail(message, "bounce")
    ensures r.Ok? ==> r.value == Prescribed(Bounce, Field(message, "bounce"), c)
    ensures r.Ok? ==> Keys(r.value) == KindKeys(Bounce)
    ensures r.Ok? ==> r.value[0].1 == JStr(c.dumps(Field(Field(message, "bounce"), "bouncedRecipients")))
    ensures r.Ok? && "reportingMTA" !in Field(message, "bounce").fields ==> r.value[1].1 == JStr("")
    ensures r.Ok? ==> r.value[4].1 == Field(Field(message, "bounce"), "timestamp")
  {
    var d :- Get(message, "bounce", JNull);
    if !d.JObj? then Err(AttributeError) else
    var recipients := FieldOr(d, "bouncedRecipients", JNull);
    var mta := FieldOr(d, "reportingMTA", JStr(""));
    var bounceType := FieldOr(d, "bounceType", JNull);
    var bounceSubType := FieldOr(d, "bounceSubType", JNull);
    var timestamp := FieldOr(d, "timestamp", JNull);
    Ok([("BounceSummary", JStr(c.dumps(recipients))),
        ("ReportingMTA", mta),
        ("BounceType", bounceType),
        ("BounceSubType", bounceSubType),
        ("MessageTime", timestamp)])
  }

  function HandleComplaint(message: Json, c: Codecs): (r: Result<Record>)
    ensures r.Ok? <==> HasDetail(message, "complaint")
    ensures r.Ok? ==> r.value == Prescribed(Complaint, Field(message, "complaint"), c)
    ensures r.Ok? ==> Keys(r.value) == KindKeys(Complaint)
    ensures r.Ok? ==> r.value[2].1 == Field(Field(message, "complaint"), "complaintFeedbackType")
    ensures r.Ok? ==> r.value[3].1 == Field(Field(message, "complaint"), "arrivalDate")
  {
    var d :- Get(message, "complaint", JNull);
    if !d.JObj? then Err(AttributeError) else
    var recipients := FieldOr(d, "complainedRecipients", JNull);
    var feedbackId := FieldOr(d, "feedbackId", JNull);
    var feedbackType := FieldOr(d, "complaintFeedbackType", JNull);
    var arrival := FieldOr(d, "arrivalDate", JNull);
    Ok([("ComplaintSummary", JStr(c.dumps(recipients))),
        ("FeedbackId", feedbackId),
        ("FeedbackType", feedbackType),
        ("MessageTime", arrival)])
  }

  function HandleDelivery(message: Json, c: Codecs): (r: Result<Record>)
    ensures r.Ok? <==> HasDetail(message, "delivery")
    ensures r.Ok? ==> r.value == Prescribed(Delivery, Field(message, "delivery"), c)
    ensures r.Ok? ==> Keys(r.value) == KindKeys(Delivery)
    ensures r.Ok? ==> r.value[0].1 == Field(Field(message, "delivery"), "recipients")
    ensures r.Ok? && "reportingMTA" !in Field(message, "delivery").fields ==> r.value[1].1 == JStr("")
    ensures r.Ok? ==> r.value[3].1 == Field(Field(message, "delivery"), "timestamp")
  {
    var d :- Get(message, "delivery", JNull);
    if !d.JObj? then Err(AttributeError) else
    var recipients := FieldOr(d, "recipients", JNull);
    var mta := FieldOr(d, "reportingMTA", JStr(""));
    var response := FieldOr(d, "smtpResponse", JNull);
    var timestamp := FieldOr(d, "timestamp", JNull);
    Ok([("DestinationAddress", recipients),
        ("ReportingMTA", mta),
        ("SMTPResponse", response),
        ("MessageTime", timestamp)])
  }

  function HandleDeliveryDelay(message: Json, c: Codecs): (r: Result<Record>)
    ensures r.Ok? <==> HasDetail(message, "deliveryDelay")
    ensures r.Ok? ==> r.value == Prescribed(DeliveryDelay, Field(message, "deliveryDelay"), c)
    ensures r.Ok? ==> Keys(r.value) == KindKeys(DeliveryDelay)
    ensures r.Ok? ==> r.value[0].1 == JStr(PyStr(c, Field(Field(message, "deliveryDelay"), "delayedRecipients")))
    ensures r.Ok? ==> r.value[3].1 == Field(Field(message, "deliveryDelay"), "timestamp")
  {
    var d :- Get(message, "deliveryDelay", JNull);
    if !d.JObj? then Err(AttributeError) else
    var recipients := FieldOr(d, "delayedRecipients", JNull);
    var expiration := FieldOr(d, "expirationTime", JNull);
    var delayType := FieldOr(d, "delayType", JNull);
    var timestamp := FieldOr(d, "timestamp", JNull);
    Ok([("DelayedRecipients", JStr(PyStr(c, recipients))),
        ("ExpirationTime", expiration),
        ("DelayType", delayType),
        ("MessageTime", timestamp)])
  }

  function HandleReject(message: Json, c: Codecs): (r: Result<Record>)
    ensures r.Ok? <==> HasDetail(message, "reject")
    ensures r.Ok? ==> r.value == Prescribed(Reject, Field(message, "reject"), c)
    ensures r.Ok? ==> r.value == [("Reason", Field(Field(message, "reject"), "reason"))]
  {
    var d :- Get(message, "reject", JNull);
    if !d.JObj? then Err(AttributeError) else
    var reason := FieldOr(d, "reason", JNull);
    Ok([("Reason", reason)])
  }

  function HandleClick(message: Json, c: Codecs): (r: Result<Record>)
    ensures r.Ok? <==> HasDetail(message, "click")
    ensures r.Ok? ==> r.value == Prescribed(Click, Field(message, "click"), c)
    ensures r.Ok? ==> Keys(r.value) == KindKeys(Click)
    ensures r.Ok? ==> r.value[2].1 == JStr(c.dumps(Field(Field(message, "click"), "linkTags")))
    ensures r.Ok? ==> r.value[4].1 == Field(Field(message, "click"), "timestamp")
  {
    var d :- Get(message, "click", JNull);
    if !d.JObj? then Err(AttributeError) else
    var ip := FieldOr(d, "ipAddress", JNull);
    var link := FieldOr(d, "link", JNull);
    var tags := FieldOr(d, "linkTags", JNull);
    var agent := FieldOr(d, "userAgent", JNull);
    var timestamp := FieldOr(d, "timestamp", JNull);
    Ok([("IPAddress", ip),
        ("Link", link),
        ("LinkTags", JStr(c.dumps(tags))),
        ("UserAgent", agent),
        ("MessageTime", timestamp)])
  }

  function HandleOpen(message: Json, c: Codecs): (r: Result<Record>)
    ensures r.Ok? <==> HasDetail(message, "open")
    ensures r.Ok? ==> r.value == Prescribed(Open, Field(message, "open"), c)
    ensures r.Ok? ==> Keys(r.value) == KindKeys(Open)
    ensures r.Ok? ==> r.value[2].1 == Field(Field(message, "open"), "timestamp")
  {
    var d :- Get(message, "open", JNull);
    if !d.JObj? then Err(AttributeError) else
    var ip := FieldOr(d, "ipAddress", JNull);
    var agent := FieldOr(d, "userAgent", JNull);
    var timestamp := FieldOr(d, "timestamp", JNull);
    Ok([("IPAddress", ip),
        ("UserAgent", agent),
        ("MessageTime", timestamp)])
  }

  function HandleRenderingFailure(message: Json, c: Codecs): (r: Result<Record>)
    ensures r.Ok? <==> HasDetail(message, "failure")
    ensures r.Ok? ==> r.value == Prescribed(RenderingFailure, Field(message, "failure"), c)
    ensures r.Ok? ==> Keys(r.value) == KindKeys(RenderingFailure)
  {
    var d :- Get(message, "failure", JNull);
    if !d.JObj? then Err(AttributeError) else
    var error := FieldOr(d, "errorMessage", JNull);
    var template := FieldOr(d, "templateName", JNull);
    Ok([("ErrorMessage", error),
        ("TemplateName", template)])
  }

  /** The dispatch table's action for a kind. */
  function Extract(k: Kind, message: Json, c: Codecs): (r: Result<Record>)
    ensures r.Ok? <==> HasDetail(message, DetailKey(k))
    ensures r.Ok? ==> Keys(r.value) == KindKeys(k) && UniqueKeys(r.value)
    ensures r.Ok? ==> r.value == Prescribed(k, Field(message, DetailKey(k)), c)
    ensures r.Ok? && TimeField(k).Some? ==>
      Lookup(r.value, "MessageTime") == Some(Field(Field(message, DetailKey(k)), TimeField(k).value))
    ensures r.Ok? && k == Delivery ==>
      Lookup(r.value, "DestinationAddress") == Some(Field(Field(message, "delivery"), "recipients"))
  {
    var r := match k
      case Bounce => HandleBounce(message, c)
      case Complaint => HandleComplaint(message, c)
      case Delivery => HandleDelivery(message, c)
      case DeliveryDelay => HandleDeliveryDelay(message, c)
      case Reject => HandleReject(message, c)
      case Click => HandleClick(message, c)
      case Open => HandleOpen(message, c)
      case RenderingFailure => HandleRenderingFailure(message, c);
    if r.Ok? then PrescribedFacts(k, Field(message, DetailKey(k)), c); r else r
  }

  /** The table's record for a kind holds each key once, under the kind's key list, with the
      detail's own time as `MessageTime` and, for a delivery, `recipients` as `DestinationAddress`. */
  lemma PrescribedFacts(k: Kind, d: Json, c: Codecs)
    ensures var p := Prescribed(k, d, c);
      && Keys(p) == KindKeys(k) && UniqueKeys(p)
      && (TimeField(k).Some? ==> Lookup(p, "MessageTime") == Some(Field(d, TimeField(k).value)))
      && (k == Delivery ==> Lookup(p, "DestinationAddress") == Some(Field(d, "recipients")))
  {
    var p := Prescribed(k, d, c);
    ColumnKeys(k, d, c);
    assert UniqueKeys(p);
    LookupUnique(p);
    if TimeField(k).Some? {
      var j := |p| - 1;
      assert Columns(k)[j] == Column("MessageTime", TimeField(k).value, Copy);
      assert p[j] == ("MessageTime", Field(d, TimeField(k).value));
    }
    if k == Delivery {
      assert p[0] == ("DestinationAddress", Field(d, "recipients"));
    }
  }

  // ---------------------------------------------------------------------------
  // Record assembly
  // ---------------------------------------------------------------------------

  /** The envelope keys every published record starts with, in this order. */
  const BaseKeys := ["MessageId", "MessageTime", "EventType", "FromAddress", "Subject", "DestinationAddress"]

  /** `xs` is `list(set(dest))`: the values `dest` iterates to, each once. */
  predicate IsSetOf(xs: seq<Json>, dest: Json) {
    && Iterate(dest).Ok?
    && (forall i, j :: 0 <= i < j < |xs| ==> Canon(xs[i]) != Canon(xs[j]))
    && CanonSet(xs) == CanonSet(Iterate(dest).value)
    && (forall i :: 0 <= i < |xs| ==> xs[i] in Iterate(dest).value)
  }

  /** `SourceIp` and `IAMUser`: the first element of the tag when the tag is truthy, else the
      top-level fallback field when that is truthy, else nothing. */
  function TagOrFallback(mail: Json, tags: Json, tag: string, fallback: string): (r: Result<Option<Json>>)
    requires mail.JObj?
    ensures r.Err? <==> !tags.JObj? || (Truthy(Field(tags, tag)) && FirstOrNone(Field(tags, tag)).Err?)
    ensures tags.JObj? && Truthy(Field(tags, tag)) && Field(tags, tag).JList? ==>
      r == Ok(Some(Field(tags, tag).items[0]))
    ensures tags.JObj? && Truthy(Field(tags, tag)) && r.Ok? ==> r == Ok(Some(FirstOrNone(Field(tags, tag)).value))
    ensures tags.JObj? && !Truthy(Field(tags, tag)) ==>
      r == Ok(if Truthy(Field(mail, fallback)) then Some(Field(mail, fallback)) else None)
  {
    var v :- Get(tags, tag, JNull);
    if Truthy(v) then
      var first :- FirstOrNone(v);
      Ok(Some(first))
    else
      var w := Field(mail, fallback);
      Ok(if Truthy(w) then Some(w) else None)
  }

  /** `ConfigSet`: the first element of the tag, or `None` when the tag is absent or empty. */
  function ConfigSetOf(tags: Json): (r: Result<Json>)
    ensures r.Err? <==> !tags.JObj? || (Truthy(Field(tags, "ses:configuration-set")) && FirstOrNone(Field(tags, "ses:configuration-set")).Err?)
    ensures tags.JObj? && !Truthy(Field(tags, "ses:configuration-set")) ==> r == Ok(JNull)
    ensures tags.JObj? && Truthy(Field(tags, "ses:configuration-set")) && Field(tags, "ses:configuration-set").JList? ==>
      r == Ok(Field(tags, "ses:configuration-set").items[0])
    ensures tags.JObj? && Truthy(Field(tags, "ses:configuration-set")) && r.Ok? ==>
      r == Ok(FirstOrNone(Field(tags, "ses:configuration-set")).value)
  {
    var v :- Get(tags, "ses:configuration-set", JNull);
    if Truthy(v) then FirstOrNone(v) else Ok(JNull)
  }

  /** One item when the value is present, none otherwise. */
  function OptionalItem(key: string, v: Option<Json>): Record {
    if v.Some? then [(key, v.value)] else []
  }

  /** The record before the kind's own fields are merged in: the envelope keys in order,
      then `SourceIp` if any, `ConfigSet` always, and `IAMUser` if any. */
  function BaseRecord(mail: Json, tags: Json, messageId: Json, messageTime: Json, eventType: Json): (r: Result<Record>)
    requires mail.JObj?
    ensures r.Ok? ==> |r.value| >= 7 && Keys(r.value)[..6] == BaseKeys && UniqueKeys(r.value)
    ensures r.Ok? ==> r.value[0].1 == messageId && r.value[1].1 == messageTime && r.value[2].1 == eventType
    ensures r.Ok? <==>
      && Envelope(mail, messageId, messageTime, eventType).Ok?
      && TagOrFallback(mail, tags, "ses:source-ip", "sourceIp").Ok?
      && ConfigSetOf(tags).Ok?
      && TagOrFallback(mail, tags, "ses:caller-identity", "callerIdentity").Ok?
    ensures r.Ok? ==> Keys(r.value) == BaseKeys + TailKeys(
      TagOrFallback(mail, tags, "ses:source-ip", "sourceIp").value,
      TagOrFallback(mail, tags, "ses:caller-identity", "callerIdentity").value)
    ensures r.Ok? ==> r.value[3].1 == Field(mail, "source")
    ensures r.Ok? ==> r.value[4].1 == Field(FieldOr(mail, "commonHeaders", JObj(map[])), "subject")
    ensures r.Ok? ==> r.value[5].1.JList? && IsSetOf(r.value[5].1.items, Field(mail, "destination"))
    ensures r.Ok? ==>
      && TagOrFallback(mail, tags, "ses:source-ip", "sourceIp").Ok?
      && Lookup(r.value, "SourceIp") == TagOrFallback(mail, tags, "ses:source-ip", "sourceIp").value
    ensures r.Ok? ==> ConfigSetOf(tags).Ok? && Lookup(r.value, "ConfigSet") == Some(ConfigSetOf(tags).value)
    ensures r.Ok? ==>
      && TagOrFallback(mail, tags, "ses:caller-identity", "callerIdentity").Ok?
      && Lookup(r.value, "IAMUser") == TagOrFallback(mail, tags, "ses:caller-identity", "callerIdentity").value
  {
    var envelope :- Envelope(mail, messageId, messageTime, eventType);
    var sourceIp :- TagOrFallback(mail, tags, "ses:source-ip", "sourceIp");
    var configSet :- ConfigSetOf(tags);
    var iamUser :- TagOrFallback(mail, tags, "ses:caller-identity", "callerIdentity");
    Ok(BaseItems(envelope, sourceIp, configSet, iamUser))
  }

  /** The six envelope items, in order; reading the subject needs `commonHeaders` to be a
      dictionary when present, and the destinations must be iterable and hashable. */
  function Envelope(mail: Json, messageId: Json, messageTime: Json, eventType: Json): (r: Result<Record>)
    ensures r.Ok? <==> FieldOr(mail, "commonHeaders", JObj(map[])).JObj? && SetList(Field(mail, "destination")).Ok?
    ensures r.Ok? ==> Keys(r.value) == BaseKeys
    ensures r.Ok? ==> r.value[0].1 == messageId && r.value[1].1 == messageTime && r.value[2].1 == eventType
    ensures r.Ok? ==> r.value[3].1 == Field(mail, "source")
    ensures r.Ok? ==> r.value[4].1 == Field(FieldOr(mail, "commonHeaders", JObj(map[])), "subject")
    ensures r.Ok? ==> r.value[5].1.JList? && IsSetOf(r.value[5].1.items, Field(mail, "destination"))
  {
    var subject :- Get(FieldOr(mail, "commonHeaders", JObj(map[])), "subject", JNull);
    var destinations :- SetList(Field(mail, "destination"));
    var envelope := [("MessageId", messageId),
                     ("MessageTime", messageTime),
                     ("EventType", eventType),
                     ("FromAddress", Field(mail, "source")),
                     ("Subject", subject),
                     ("DestinationAddress", JList(destinations))];
    assert Keys(envelope) == BaseKeys;
    Ok(envelope)
  }

  /** The keys after the envelope: `SourceIp` when present, `ConfigSet` always, `IAMUser` when present. */
  function TailKeys(sourceIp: Option<Json>, iamUser: Option<Json>): seq<string> {
    (if sourceIp.Some? then ["SourceIp"] else []) + ["ConfigSet"] + (if iamUser.Some? then ["IAMUser"] else [])
  }

  /** The envelope followed by the optional items, each only when present. */
  function BaseItems(envelope: Record, sourceIp: Option<Json>, configSet: Json, iamUser: Option<Json>): (r: Record)
    requires Keys(envelope) == BaseKeys
    ensures Keys(r) == BaseKeys + TailKeys(sourceIp, iamUser)
    ensures |r| >= 7 && Keys(r)[..6] == BaseKeys && UniqueKeys(r)
    ensures r[..6] == envelope
    ensures Lookup(r, "SourceIp") == sourceIp
    ensures Lookup(r, "ConfigSet") == Some(configSet)
    ensures Lookup(r, "IAMUser") == iamUser
  {
    var later := [("ConfigSet", configSet)] + OptionalItem("IAMUser", iamUser);
    var tail := OptionalItem("SourceIp", sourceIp) + later;
    TailFacts(sourceIp, configSet, iamUser);
    EnvelopeThenTail(envelope, tail);
    KeysConcat(envelope, tail);
    KeysConcat(OptionalItem("SourceIp", sourceIp), later);
    KeysConcat([("ConfigSet", configSet)], OptionalItem("IAMUser", iamUser));
    envelope + tail
  }

  /** The optional part of the base record holds each of its three keys at most once. */
  lemma TailFacts(sourceIp: Option<Json>, configSet: Json, iamUser: Option<Json>)
    ensures var tail := OptionalItem("SourceIp", sourceIp) + ([("ConfigSet", configSet)] + OptionalItem("IAMUser", iamUser));
      && UniqueKeys(tail)
      && (forall i :: 0 <= i < |tail| ==> tail[i].0 in ["SourceIp", "ConfigSet", "IAMUser"])
      && Lookup(tail, "SourceIp") == sourceIp
      && Lookup(tail, "ConfigSet") == Some(configSet)
      && Lookup(tail, "IAMUser") == iamUser
  {
    var later := [("ConfigSet", configSet)] + OptionalItem("IAMUser", iamUser);
    LookupMissing(later, "SourceIp");
    LookupConcat(OptionalItem("SourceIp", sourceIp), later, "SourceIp");
    LookupConcat(OptionalItem("SourceIp", sourceIp), later, "ConfigSet");
    LookupConcat(OptionalItem("SourceIp", sourceIp), later, "IAMUser");
  }

  /** The envelope keys followed by optional keys: the envelope keeps its positions and
      the optional keys are looked up in the tail. */
  lemma EnvelopeThenTail(envelope: Record, tail: Record)
    requires Keys(envelope) == BaseKeys
    requires UniqueKeys(tail)
    requires forall i :: 0 <= i < |tail| ==> tail[i].0 in ["SourceIp", "ConfigSet", "IAMUser"]
    ensures Keys(envelope + tail)[..6] == BaseKeys && UniqueKeys(envelope + tail)
    ensures forall k :: k in ["SourceIp", "ConfigSet", "IAMUser"] ==> Lookup(envelope + tail, k) == Lookup(tail, k)
  {
    var r := envelope + tail;
    assert forall i :: 0 <= i < 6 ==> Keys(r)[..6][i] == envelope[i].0 == BaseKeys[i];
    assert UniqueKeys(envelope) by {
      assert forall i :: 0 <= i < 6 ==> envelope[i].0 == BaseKeys[i];
    }
    UniqueConcat(envelope, tail);
    forall k | k in ["SourceIp", "ConfigSet", "IAMUser"] ensures Lookup(r, k) == Lookup(tail, k) {
      LookupMissing(envelope, k);
      LookupConcat(envelope, tail, k);
    }
  }

  // ---------------------------------------------------------------------------
  // The handler, as a function of the event
  // ---------------------------------------------------------------------------

  /** What the handler does with one event. */
  datatype Outcome =
    | Dropped                                  // returns without a word
    | Unhandled(eventType: Json)               // logs a critical diagnostic and returns
    | Raised(error: PyError)                   // an exception escapes the handler
    | Publish(messageId: Json, record: Record) // hands the record to the publisher

  /** The event carries no `Records[0].Sns.Message`. */
  predicate NoSnsMessage(event: Json) {
    SnsField(event, "Message").Err? && SnsField(event, "Message").error in {KeyError, IndexError}
  }

  /** The message decodes to a dictionary whose `mail` is missing or empty. */
  predicate EmptyMail(event: Json, c: Codecs) {
    && SnsMessage(event, c).Ok?
    && SnsMessage(event, c).value.JObj?
    && FieldOr(SnsMessage(event, c).value, "mail", JObj(map[])) == JObj(map[])
  }

  /** The discriminator: `eventType` as soon as the key is present, whatever its value. */
  function TypeKey(message: Json): (key: string)
    ensures key == "eventType" || key == "notificationType"
    ensures key == "eventType" <==> message.JObj? && "eventType" in message.fields
  {
    if message.JObj? && "eventType" in message.fields then "eventType" else "notificationType"
  }

  /** `message.get(type_key)`: the `eventType` field if present, else `notificationType`, else `None`. */
  function EventTypeOf(message: Json): (t: Json)
    ensures message.JObj? ==> t == FieldOr(message, "eventType", Field(message, "notificationType"))
    ensures !message.JObj? ==> t == JNull
  {
    Field(message, TypeKey(message))
  }

  /** A present `eventType` wins even when it is `null`; otherwise `notificationType` is read. */
  lemma DiscriminatorPrecedence(m: map<string, Json>)
    ensures "eventType" in m ==> EventTypeOf(JObj(m)) == m["eventType"]
    ensures "eventType" !in m ==> EventTypeOf(JObj(m)) == if "notificationType" in m then m["notificationType"] else JNull
  {
  }

  /** The kind an event type names in the dispatch table, if any. */
  function NamedKind(eventType: Json): (k: Option<Kind>)
    ensures k.Some? ==> eventType == JStr(KindName(k.value))
    ensures k.None? ==> !(eventType.JStr? && exists k' :: KindName(k') == eventType.s)
  {
    if eventType.JStr? then KindOfName(eventType.s) else None
  }

  /** Every step before the dispatch-table lookup succeeds on this decoded message: it is a
      dictionary whose `mail` is a non-empty dictionary with a `messageId`, the notification
      carries a `Timestamp`, the base record can be built, and the event type can be hashed. */
  predicate ReachesDispatch(event: Json, message: Json) {
    && message.JObj?
    && Field(message, "mail").JObj? && Field(message, "mail") != JObj(map[])
    && "messageId" in Field(message, "mail").fields
    && SnsField(event, "Timestamp").Ok?
    && BaseRecord(Field(message, "mail"), FieldOr(Field(message, "mail"), "tags", JObj(map[])),
                  Field(Field(message, "mail"), "messageId"), SnsField(event, "Timestamp").value,
                  EventTypeOf(message)).Ok?
    && Hashable(EventTypeOf(message))
  }

  /** The handler after the message has been decoded. */
  function Assemble(event: Json, c: Codecs, message: Json): (r: Result<Outcome>)
    ensures r.Ok? ==> !r.value.Raised?
    ensures !message.JObj? ==> r == Err(AttributeError)
    ensures r == Ok(Dropped) <==> message.JObj? && FieldOr(message, "mail", JObj(map[])) == JObj(map[])
    ensures r.Ok? && r.value.Unhandled? <==>
      ReachesDispatch(event, message) && NamedKind(EventTypeOf(message)).None?
    ensures r.Ok? && r.value.Unhandled? ==> r.value.eventType == EventTypeOf(message)
    ensures r.Ok? && r.value.Publish? <==>
      && ReachesDispatch(event, message) && NamedKind(EventTypeOf(message)).Some?
      && HasDetail(message, DetailKey(NamedKind(EventTypeOf(message)).value))
  {
    var mail :- Get(message, "mail", JObj(map[]));
    var tags :- Get(mail, "tags", JObj(map[]));
    if !Truthy(mail) then Ok(Dropped) else
    var messageTime :- SnsField(event, "Timestamp");
    var eventType := EventTypeOf(message);
    var messageId :- Subscript(mail, Key("messageId"));
    var base :- BaseRecord(mail, tags, messageId, messageTime, eventType);
    var kind :- Dispatch(eventType);
    if kind.None? then Ok(Unhandled(eventType)) else
    var fields :- Extract(kind.value, message, c);
    Ok(Publish(messageId, Update(base, fields)))
  }

  /** The whole of the handler's record assembly and dispatch. */
  function Handle(event: Json, c: Codecs): (o: Outcome)
    ensures o.Dropped? <==> NoSnsMessage(event) || EmptyMail(event, c)
    ensures o.Unhandled? <==>
      && SnsMessage(event, c).Ok? && ReachesDispatch(event, SnsMessage(event, c).value)
      && NamedKind(EventTypeOf(SnsMessage(event, c).value)).None?
    ensures o.Publish? <==>
      && SnsMessage(event, c).Ok? && ReachesDispatch(event, SnsMessage(event, c).value)
      && NamedKind(EventTypeOf(SnsMessage(event, c).value)).Some?
      && HasDetail(SnsMessage(event, c).value, DetailKey(NamedKind(EventTypeOf(SnsMessage(event, c).value)).value))
    ensures o.Unhandled? ==>
      && SnsMessage(event, c).Ok?
      && o.eventType == EventTypeOf(SnsMessage(event, c).value)
      && Hashable(o.eventType)
      && !(o.eventType.JStr? && exists k :: KindName(k) == o.eventType.s)
    ensures o.Publish? ==>
      && SnsMessage(event, c).Ok?
      && EventTypeOf(SnsMessage(event, c).value).JStr?
      && KindOfName(EventTypeOf(SnsMessage(event, c).value).s).Some?
  {
    var raw := SnsField(event, "Message");
    if raw.Err? then
      if raw.error == KeyError || raw.error == IndexError then Dropped else Raised(raw.error)
    else
      match Loads(c, raw.value)
      case Err(e) => Raised(e)
      case Ok(message) =>
        match Assemble(event, c, message)
        case Ok(o) => o
        case Err(e) => Raised(e)
  }

  /** The record a published event carries starts with the envelope keys in order, holds
      every key once, and names the message and its event type as the envelope gave them. */
  lemma PublishedEnvelope(event: Json, c: Codecs)
    requires Handle(event, c).Publish?
    ensures
      var o := Handle(event, c);
      var message := SnsMessage(event, c).value;
      var mail := Field(message, "mail");
      && |o.record| >= 7 && Keys(o.record)[..6] == BaseKeys
      && UniqueKeys(o.record)
      && o.messageId == Field(mail, "messageId")
      && Lookup(o.record, "MessageId") == Some(o.messageId)
      && Lookup(o.record, "EventType") == Some(EventTypeOf(message))
      && Lookup(o.record, "FromAddress") == Some(Field(mail, "source"))
      && Lookup(o.record, "Subject") == Some(Field(FieldOr(mail, "commonHeaders", JObj(map[])), "subject"))
  {
    var o := Handle(event, c);
    var message := SnsMessage(event, c).value;
    var mail := Field(message, "mail");
    var eventType := EventTypeOf(message);
    var k := KindOfName(eventType.s).value;
    PublishParts(event, c);
    var base := BaseRecord(mail, FieldOr(mail, "tags", JObj(map[])), Field(mail, "messageId"), SnsField(event, "Timestamp").value, eventType).value;
    MergedRecord(base, Extract(k, message, c).value, k);
    KindKeysOverlap(k);
    LookupUnique(base);
    assert base[0].0 == "MessageId" && base[2].0 == "EventType" && base[3].0 == "FromAddress";
    assert base[4].0 == "Subject";
  }

  /** Every key the kind's extractor names carries, in the published record, the value the
      per-kind field table prescribes for the message's detail dictionary. */
  lemma PublishedDetail(event: Json, c: Codecs)
    requires Handle(event, c).Publish?
    ensures
      var o := Handle(event, c);
      var message := SnsMessage(event, c).value;
      var k := KindOfName(EventTypeOf(message).s).value;
      var fields := Prescribed(k, Field(message, DetailKey(k)), c);
      forall i :: 0 <= i < |fields| ==> Lookup(o.record, fields[i].0) == Some(fields[i].1)
  {
    var message := SnsMessage(event, c).value;
    var mail := Field(message, "mail");
    var eventType := EventTypeOf(message);
    var k := KindOfName(eventType.s).value;
    PublishParts(event, c);
    var base := BaseRecord(mail, FieldOr(mail, "tags", JObj(map[])), Field(mail, "messageId"), SnsField(event, "Timestamp").value, eventType).value;
    MergedTakesFields(base, Extract(k, message, c).value);
  }

  /** The published record's key order: the envelope keys, then SourceIp when given, ConfigSet,
      IAMUser when given, then the kind's keys that the base record does not hold yet, in the
      order of the extractor's dictionary. */
  lemma PublishedKeys(event: Json, c: Codecs)
    requires Handle(event, c).Publish?
    ensures
      var o := Handle(event, c);
      var message := SnsMessage(event, c).value;
      var mail := Field(message, "mail");
      var tags := FieldOr(mail, "tags", JObj(map[]));
      var k := KindOfName(EventTypeOf(message).s).value;
      && mail.JObj?
      && TagOrFallback(mail, tags, "ses:source-ip", "sourceIp").Ok?
      && TagOrFallback(mail, tags, "ses:caller-identity", "callerIdentity").Ok?
      && Keys(o.record) == BaseKeys
           + TailKeys(TagOrFallback(mail, tags, "ses:source-ip", "sourceIp").value,
                      TagOrFallback(mail, tags, "ses:caller-identity", "callerIdentity").value)
           + NewKeys(BaseKeys, KindKeys(k))
  {
    var message := SnsMessage(event, c).value;
    var mail := Field(message, "mail");
    var tags := FieldOr(mail, "tags", JObj(map[]));
    var eventType := EventTypeOf(message);
    var k := KindOfName(eventType.s).value;
    PublishParts(event, c);
    var base := BaseRecord(mail, tags, Field(mail, "messageId"), SnsField(event, "Timestamp").value, eventType).value;
    var tail := TailKeys(TagOrFallback(mail, tags, "ses:source-ip", "sourceIp").value,
                         TagOrFallback(mail, tags, "ses:caller-identity", "callerIdentity").value);
    KindKeysOverlap(k);
    assert forall x :: x in tail ==> x in ["SourceIp", "ConfigSet", "IAMUser"];
    NewKeysIgnore(BaseKeys, tail, KindKeys(k));
  }

  /** The kind's keys a published record gains after the base keys, kind by kind: only
      `MessageTime` and, for a delivery, `DestinationAddress` are already present. */
  lemma AppendedKindKeys(k: Kind)
    ensures NewKeys(BaseKeys, KindKeys(k)) == match k
      case Bounce => ["BounceSummary", "ReportingMTA", "BounceType", "BounceSubType"]
      case Complaint => ["ComplaintSummary", "FeedbackId", "FeedbackType"]
      case Delivery => ["ReportingMTA", "SMTPResponse"]
      case DeliveryDelay => ["DelayedRecipients", "ExpirationTime", "DelayType"]
      case Reject => ["Reason"]
      case Click => ["IPAddress", "Link", "LinkTags", "UserAgent"]
      case Open => ["IPAddress", "UserAgent"]
      case RenderingFailure => ["ErrorMessage", "TemplateName"]
  {
    match k
    case Bounce => AppendedBounce();
    case Complaint => AppendedComplaint();
    case Delivery => AppendedDelivery();
    case DeliveryDelay => AppendedDeliveryDelay();
    case Reject => AppendedReject();
    case Click => AppendedClick();
    case Open => AppendedOpen();
    case RenderingFailure => AppendedRenderingFailure();
  }

  lemma AppendedBounce()
    ensures NewKeys(BaseKeys, KindKeys(Bounce)) == ["BounceSummary", "ReportingMTA", "BounceType", "BounceSubType"]
  {
    var ks := ["BounceSummary", "ReportingMTA", "BounceType", "BounceSubType", "MessageTime"];
    assert "BounceSummary" !in BaseKeys && "ReportingMTA" !in BaseKeys && "BounceType" !in BaseKeys && "BounceSubType" !in BaseKeys;
    assert ks[1..] == ["ReportingMTA", "BounceType", "BounceSubType", "MessageTime"];
    assert ks[2..] == ["BounceType", "BounceSubType", "MessageTime"];
    assert ks[3..] == ["BounceSubType", "MessageTime"];
    assert ks[4..] == ["MessageTime"];
  }

  lemma AppendedComplaint()
    ensures NewKeys(BaseKeys, KindKeys(Complaint)) == ["ComplaintSummary", "FeedbackId", "FeedbackType"]
  {
    var ks := ["ComplaintSummary", "FeedbackId", "FeedbackType", "MessageTime"];
    assert "ComplaintSummary" !in BaseKeys && "FeedbackId" !in BaseKeys && "FeedbackType" !in BaseKeys;
    assert ks[1..] == ["FeedbackId", "FeedbackType", "MessageTime"];
    assert ks[2..] == ["FeedbackType", "MessageTime"];
    assert ks[3..] == ["MessageTime"];
  }

  lemma AppendedDelivery()
    ensures NewKeys(BaseKeys, KindKeys(Delivery)) == ["ReportingMTA", "SMTPResponse"]
  {
    var ks := ["DestinationAddress", "ReportingMTA", "SMTPResponse", "MessageTime"];
    assert "ReportingMTA" !in BaseKeys && "SMTPResponse" !in BaseKeys;
    assert ks[1..] == ["ReportingMTA", "SMTPResponse", "MessageTime"];
    assert ks[2..] == ["SMTPResponse", "MessageTime"];
    assert ks[3..] == ["MessageTime"];
  }

  lemma AppendedDeliveryDelay()
    ensures NewKeys(BaseKeys, KindKeys(DeliveryDelay)) == ["DelayedRecipients", "ExpirationTime", "DelayType"]
  {
    var ks := ["DelayedRecipients", "ExpirationTime", "DelayType", "MessageTime"];
    assert "DelayedRecipients" !in BaseKeys && "ExpirationTime" !in BaseKeys && "DelayType" !in BaseKeys;
    assert ks[1..] == ["ExpirationTime", "DelayType", "MessageTime"];
    assert ks[2..] == ["DelayType", "MessageTime"];
    assert ks[3..] == ["MessageTime"];
  }

  lemma AppendedReject()
    ensures NewKeys(BaseKeys, KindKeys(Reject)) == ["Reason"]
  {
    var ks := ["Reason"];
    assert "Reason" !in BaseKeys;
  }

  lemma AppendedClick()
    ensures NewKeys(BaseKeys, KindKeys(Click)) == ["IPAddress", "Link", "LinkTags", "UserAgent"]
  {
    var ks := ["IPAddress", "Link", "LinkTags", "UserAgent", "MessageTime"];
    assert "IPAddress" !in BaseKeys && "Link" !in BaseKeys && "LinkTags" !in BaseKeys && "UserAgent" !in BaseKeys;
    assert ks[1..] == ["Link", "LinkTags", "UserAgent", "MessageTime"];
    assert ks[2..] == ["LinkTags", "UserAgent", "MessageTime"];
    assert ks[3..] == ["UserAgent", "MessageTime"];
    assert ks[4..] == ["MessageTime"];
  }

  lemma AppendedOpen()
    ensures NewKeys(BaseKeys, KindKeys(Open)) == ["IPAddress", "UserAgent"]
  {
    var ks := ["IPAddress", "UserAgent", "MessageTime"];
    assert "IPAddress" !in BaseKeys && "UserAgent" !in BaseKeys;
    assert ks[1..] == ["UserAgent", "MessageTime"];
    assert ks[2..] == ["MessageTime"];
  }

  lemma AppendedRenderingFailure()
    ensures NewKeys(BaseKeys, KindKeys(RenderingFailure)) == ["ErrorMessage", "TemplateName"]
  {
    var ks := ["ErrorMessage", "TemplateName"];
    assert "ErrorMessage" !in BaseKeys && "TemplateName" !in BaseKeys;
    assert ks[1..] == ["TemplateName"];
  }

  /** After `base.update(fields)`, every item of a dictionary `fields` is found with its value. */
  lemma MergedTakesFields(base: Record, fields: Record)
    requires UniqueKeys(fields)
    ensures forall i :: 0 <= i < |fields| ==> Lookup(Update(base, fields), fields[i].0) == Some(fields[i].1)
  {
    LookupUnique(fields);
  }

  /** `MessageTime` is the detail's own time for the kinds that have one and the SNS
      timestamp otherwise; `DestinationAddress` is the delivery's recipients for a delivery
      and the de-duplicated destinations for every other kind. */
  lemma PublishedOverwrites(event: Json, c: Codecs)
    requires Handle(event, c).Publish?
    ensures
      var o := Handle(event, c);
      var message := SnsMessage(event, c).value;
      var mail := Field(message, "mail");
      var k := KindOfName(EventTypeOf(message).s).value;
      && Lookup(o.record, "MessageTime") == Some(
           if TimeField(k).Some? then Field(Field(message, DetailKey(k)), TimeField(k).value)
           else SnsField(event, "Timestamp").value)
      && (k == Delivery ==>
           Lookup(o.record, "DestinationAddress") == Some(Field(Field(message, "delivery"), "recipients")))
      && (k != Delivery ==>
           exists xs :: Lookup(o.record, "DestinationAddress") == Some(JList(xs)) && IsSetOf(xs, Field(mail, "destination")))
  {
    var o := Handle(event, c);
    var message := SnsMessage(event, c).value;
    var mail := Field(message, "mail");
    var eventType := EventTypeOf(message);
    var k := KindOfName(eventType.s).value;
    PublishParts(event, c);
    var base := BaseRecord(mail, FieldOr(mail, "tags", JObj(map[])), Field(mail, "messageId"), SnsField(event, "Timestamp").value, eventType).value;
    MergedRecord(base, Extract(k, message, c).value, k);
    KindKeysOverlap(k);
    LookupUnique(base);
    assert base[1].0 == "MessageTime" && base[5].0 == "DestinationAddress";
    if k != Delivery {
      assert Lookup(o.record, "DestinationAddress") == Some(JList(base[5].1.items));
    }
  }

  /** `SourceIp`, `ConfigSet` and `IAMUser` are the envelope's: no extractor names them. */
  lemma PublishedTags(event: Json, c: Codecs)
    requires Handle(event, c).Publish?
    ensures
      var o := Handle(event, c);
      var mail := Field(SnsMessage(event, c).value, "mail");
      var tags := FieldOr(mail, "tags", JObj(map[]));
      && mail.JObj?
      && TagOrFallback(mail, tags, "ses:source-ip", "sourceIp").Ok?
      && TagOrFallback(mail, tags, "ses:caller-identity", "callerIdentity").Ok?
      && ConfigSetOf(tags).Ok?
      && Lookup(o.record, "SourceIp") == TagOrFallback(mail, tags, "ses:source-ip", "sourceIp").value
      && Lookup(o.record, "ConfigSet") == Some(ConfigSetOf(tags).value)
      && Lookup(o.record, "IAMUser") == TagOrFallback(mail, tags, "ses:caller-identity", "callerIdentity").value
  {
    var message := SnsMessage(event, c).value;
    var mail := Field(message, "mail");
    var eventType := EventTypeOf(message);
    var k := KindOfName(eventType.s).value;
    PublishParts(event, c);
    var base := BaseRecord(mail, FieldOr(mail, "tags", JObj(map[])), Field(mail, "messageId"), SnsField(event, "Timestamp").value, eventType).value;
    MergedKeepsTags(base, Extract(k, message, c).value, k);
  }

  /** Unfolds the handler for a published event into the two records it merges. */
  lemma PublishParts(event: Json, c: Codecs)
    requires Handle(event, c).Publish?
    ensures
      var o := Handle(event, c);
      var message := SnsMessage(event, c).value;
      var mail := Field(message, "mail");
      var tags := FieldOr(mail, "tags", JObj(map[]));
      var eventType := EventTypeOf(message);
      var base := BaseRecord(mail, tags, Field(mail, "messageId"), SnsField(event, "Timestamp").value, eventType);
      var k := KindOfName(eventType.s).value;
      && message.JObj? && mail.JObj? && "messageId" in mail.fields
      && SnsField(event, "Timestamp").Ok?
      && o.messageId == Field(mail, "messageId")
      && base.Ok? && Extract(k, message, c).Ok?
      && o.record == Update(base.value, Extract(k, message, c).value)
  {
    var message := SnsMessage(event, c).value;
    assert Assemble(event, c, message) == Ok(Handle(event, c));
  }

  /** Merging a kind's fields into a base record: the base keeps its key positions, the kind's
      keys take the kind's values, and every other key keeps the base's value. */
  lemma MergedRecord(base: Record, fields: Record, k: Kind)
    requires |base| >= 7 && Keys(base)[..6] == BaseKeys && UniqueKeys(base)
    requires Keys(fields) == KindKeys(k) && UniqueKeys(fields)
    ensures var r := Update(base, fields);
      && |r| >= 7 && Keys(r)[..6] == BaseKeys && UniqueKeys(r)
      && (forall key :: key !in KindKeys(k) ==> Lookup(r, key) == Lookup(base, key))
      && (forall key :: key in KindKeys(k) ==> Lookup(r, key) == Lookup(fields, key))
  {
    var r := Update(base, fields);
    assert forall i :: 0 <= i < 6 ==> Keys(r)[..6][i] == base[i].0 == BaseKeys[i];
    forall key ensures Lookup(fields, key).Some? <==> key in KindKeys(k) {
      LookupKeys(fields, key);
    }
  }

  /** No kind's fields touch the three tag-derived keys of the base record. */
  lemma MergedKeepsTags(base: Record, fields: Record, k: Kind)
    requires |base| >= 7 && Keys(base)[..6] == BaseKeys && UniqueKeys(base)
    requires Keys(fields) == KindKeys(k) && UniqueKeys(fields)
    ensures var r := Update(base, fields);
      && Lookup(r, "SourceIp") == Lookup(base, "SourceIp")
      && Lookup(r, "ConfigSet") == Lookup(base, "ConfigSet")
      && Lookup(r, "IAMUser") == Lookup(base, "IAMUser")
  {
    KindKeysOverlap(k);
    MergedKeeps(base, fields, k, "SourceIp");
    MergedKeeps(base, fields, k, "ConfigSet");
    MergedKeeps(base, fields, k, "IAMUser");
  }

  lemma MergedKeeps(base: Record, fields: Record, k: Kind, key: string)
    requires Keys(fields) == KindKeys(k) && key !in KindKeys(k)
    ensures Lookup(Update(base, fields), key) == Lookup(base, key)
  {
    LookupKeys(fields, key);
  }

  // ---------------------------------------------------------------------------
  // The log service and the publisher
  // ---------------------------------------------------------------------------

  /** What the handler reads from its environment: the log group (`LOGS_DESTINATION`),
      the date string computed once when the module is loaded, and the clock in milliseconds
      at the moment the put request is built. */
  datatype Env = Env(logsDestination: Option<string>, dmy: string, nowMillis: int)

  datatype CreateReply = Created | AlreadyExists | CreateFailed

  datatype LogEvent = LogEvent(timestamp: int, message: string)

  datatype LogCall =
    | CreateStreamCall(group: Option<string>, stream: string)
    | PutEventsCall(group: Option<string>, stream: string, events: seq<LogEvent>, sequenceToken: Option<string>)

  /** The head of a queue of scripted replies, or a default once the script is used up. */
  function NextOr<T>(q: seq<T>, default: T): T {
    if q == [] then default else q[0]
  }

  function Rest<T>(q: seq<T>): seq<T> {
    if q == [] then [] else q[1..]
  }

  /** The log service: its replies to stream creation and to puts are given in advance, and
      it records every call made to it. A put reply `true` means the put was accepted. */
  class LogsClient {
    var createReplies: seq<CreateReply>
    var putReplies: seq<bool>
    var calls: seq<LogCall>

    constructor (createReplies: seq<CreateReply>, putReplies: seq<bool>)
      ensures this.createReplies == createReplies && this.putReplies == putReplies && calls == []
    {
      this.createReplies := createReplies;
      this.putReplies := putReplies;
      calls := [];
    }

    method CreateLogStream(group: Option<string>, stream: string) returns (reply: CreateReply)
      modifies this
      ensures reply == NextOr(old(createReplies), Created)
      ensures createReplies == Rest(old(createReplies)) && putReplies == old(putReplies)
      ensures calls == old(calls) + [CreateStreamCall(group, stream)]
    {
      reply := NextOr(createReplies, Created);
      createReplies := Rest(createReplies);
      calls := calls + [CreateStreamCall(group, stream)];
    }

    method PutLogEvents(group: Option<string>, stream: string, events: seq<LogEvent>, sequenceToken: Option<string>)
      returns (accepted: bool)
      modifies this
      ensures accepted == NextOr(old(putReplies), true)
      ensures putReplies == Rest(old(putReplies)) && createReplies == old(createReplies)
      ensures calls == old(calls) + [PutEventsCall(group, stream, events, sequenceToken)]
    {
      accepted := NextOr(putReplies, true);
      putReplies := Rest(putReplies);
      calls := calls + [PutEventsCall(group, stream, events, sequenceToken)];
    }
  }

  /** The stream of one message: the date string, a slash, and the message id as text. */
  function StreamName(dmy: string, messageId: Json, c: Codecs): (name: string)
    ensures |name| == |dmy| + 1 + |PyStr(c, messageId)|
    ensures name[..|dmy|] == dmy && name[|dmy|] == '/' && name[|dmy| + 1..] == PyStr(c, messageId)
  {
    dmy + "/" + PyStr(c, messageId)
  }

  /** On one day, two messages share a stream only when their ids print the same. */
  lemma StreamPerMessage(dmy: string, a: Json, b: Json, c: Codecs)
    ensures StreamName(dmy, a, c) == StreamName(dmy, b, c) <==> PyStr(c, a) == PyStr(c, b)
  {
    if StreamName(dmy, a, c) == StreamName(dmy, b, c) {
      assert StreamName(dmy, a, c)[|dmy| + 1..] == StreamName(dmy, b, c)[|dmy| + 1..];
    }
  }

  /** The puts among a sequence of calls. */
  function Puts(calls: seq<LogCall>): (r: seq<LogCall>)
    ensures forall i :: 0 <= i < |r| ==> r[i].PutEventsCall? && r[i] in calls
    ensures |r| <= |calls|
  {
    if calls == [] then []
    else if calls[0].PutEventsCall? then [calls[0]] + Puts(calls[1..])
    else Puts(calls[1..])
  }

  /** The calls one publish makes, given the reply to stream creation. */
  function PublishCalls(env: Env, c: Codecs, messageId: Json, record: Record, created: CreateReply): seq<LogCall> {
    var stream := StreamName(env.dmy, messageId, c);
    [CreateStreamCall(env.logsDestination, stream)]
    + if created == CreateFailed then []
      else [PutEventsCall(env.logsDestination, stream, [LogEvent(env.nowMillis, c.dumpsRecord(record))], None)]
  }

  /** A publish creates the stream first; a failed creation ends it without a put, and
      otherwise exactly one put follows, to the same stream, with one event holding the
      serialised record and no sequence token, however many attempts the loop allows. */
  lemma PublishCallsShape(env: Env, c: Codecs, messageId: Json, record: Record, created: CreateReply)
    ensures var calls := PublishCalls(env, c, messageId, record, created);
      && calls[0] == CreateStreamCall(env.logsDestination, StreamName(env.dmy, messageId, c))
      && |Puts(calls)| == (if created == CreateFailed then 0 else 1)
      && |calls| == 1 + |Puts(calls)|
      && forall p :: p in Puts(calls) ==>
           && p.stream == StreamName(env.dmy, messageId, c)
           && p.events == [LogEvent(env.nowMillis, c.dumpsRecord(record))]
           && p.sequenceToken == None
  {
    var calls := PublishCalls(env, c, messageId, record, created);
    assert calls[1..] == if created == CreateFailed then [] else [calls[1]];
    if created != CreateFailed {
      assert Puts(calls[1..][1..]) == [];
    }
  }

  /** The diagnostics one publish emits, given the replies it gets. */
  function PublishDiagnostics(stream: string, created: CreateReply, accepted: bool): (d: seq<Diagnostic>)
    ensures |d| <= 1 && forall e :: e in d ==> SeverityOf(e) == Error
    ensures d == [] <==> created != CreateFailed && accepted
  {
    if created == CreateFailed then [CreateLogStreamFailed(stream)]
    else if accepted then []
    else [PutLogEventsFailed(stream)]
  }

  /** `publish_to_cloudwatch`: create the stream, ignoring "already exists"; on any other
      failure log an error and stop; otherwise put the one event and log an error if the put
      is rejected. Both branches of the put loop return, so the loop body runs once. */
  method PublishToCloudwatch(logs: LogsClient, log: Logger, env: Env, c: Codecs, messageId: Json, logDetail: Record)
    modifies logs, log
    ensures var created := NextOr(old(logs.createReplies), Created);
      && logs.calls == old(logs.calls) + PublishCalls(env, c, messageId, logDetail, created)
      && logs.createReplies == Rest(old(logs.createReplies))
      && logs.putReplies == (if created == CreateFailed then old(logs.putReplies) else Rest(old(logs.putReplies)))
      && log.entries == old(log.entries)
           + PublishDiagnostics(StreamName(env.dmy, messageId, c), created, NextOr(old(logs.putReplies), true))
  {
    var stream := StreamName(env.dmy, messageId, c);
    var created := logs.CreateLogStream(env.logsDestination, stream);
    if created == CreateFailed {
      log.Log(CreateLogStreamFailed(stream));
      return;
    }
    var events := [LogEvent(env.nowMillis, c.dumpsRecord(logDetail))];
    var count := 0;
    var done := false;  // set where the source returns from inside the loop
    while count < MaxPutAttempts && !done
      invariant 0 <= count <= MaxPutAttempts
      invariant count == if done then 1 else 0
      invariant !done ==> logs.calls == old(logs.calls) + [CreateStreamCall(env.logsDestination, stream)]
      invariant !done ==> logs.putReplies == old(logs.putReplies) && log.entries == old(log.entries)
      invariant done ==> logs.calls == old(logs.calls) + PublishCalls(env, c, messageId, logDetail, created)
      invariant done ==> logs.putReplies == Rest(old(logs.putReplies))
      invariant done ==> log.entries == old(log.entries) + PublishDiagnostics(stream, created, NextOr(old(logs.putReplies), true))
      invariant logs.createReplies == Rest(old(logs.createReplies))
      decreases MaxPutAttempts - count
    {
      count := count + 1;
      var accepted := logs.PutLogEvents(env.logsDestination, stream, events, None);
      if !accepted {
        log.Log(PutLogEventsFailed(stream));
        done := true;
      } else {
        done := true;
      }
    }
  }

  /** Assigning a key a record does not hold yet appends it. */
  lemma PutFresh(r: Record, k: string, v: Json)
    requires k !in Keys(r)
    ensures Put(r, k, v) == r + [(k, v)]
  {
    LookupKeys(r, k);
  }

  /** The keys of a concatenation, and of an optional item. */
  lemma KeysAppend(r: Record, key: string, v: Option<Json>)
    ensures Keys(r + OptionalItem(key, v)) == Keys(r) + if v.Some? then [key] else []
  {
    assert forall i :: 0 <= i < |r| ==> (r + OptionalItem(key, v))[i] == r[i];
  }

  /** Six assignments to fresh keys lay the envelope out in assignment order. */
  lemma EnvelopeAssignments(messageId: Json, messageTime: Json, eventType: Json, source: Json, subject: Json, destinations: Json)
    ensures Put(Put(Put(Put(Put(Put([], "MessageId", messageId), "MessageTime", messageTime), "EventType", eventType),
                        "FromAddress", source), "Subject", subject), "DestinationAddress", destinations)
         == [("MessageId", messageId), ("MessageTime", messageTime), ("EventType", eventType),
             ("FromAddress", source), ("Subject", subject), ("DestinationAddress", destinations)]
  {
    var r0: Record := [];
    PutFresh(r0, "MessageId", messageId);
    var r1 := Put(r0, "MessageId", messageId);
    assert r1 == [("MessageId", messageId)];
    PutFresh(r1, "MessageTime", messageTime);
    var r2 := Put(r1, "MessageTime", messageTime);
    assert r2 == [("MessageId", messageId), ("MessageTime", messageTime)];
    PutFresh(r2, "EventType", eventType);
    var r3 := Put(r2, "EventType", eventType);
    assert r3 == [("MessageId", messageId), ("MessageTime", messageTime), ("EventType", eventType)];
    PutFresh(r3, "FromAddress", source);
    var r4 := Put(r3, "FromAddress", source);
    assert r4 == [("MessageId", messageId), ("MessageTime", messageTime), ("EventType", eventType),
                  ("FromAddress", source)];
    PutFresh(r4, "Subject", subject);
    var r5 := Put(r4, "Subject", subject);
    assert r5 == [("MessageId", messageId), ("MessageTime", messageTime), ("EventType", eventType),
                  ("FromAddress", source), ("Subject", subject)];
    PutFresh(r5, "DestinationAddress", destinations);
  }

  /** The envelope as the handler builds it, one key assignment after the other. */
  method BuildEnvelope(mail: Json, messageId: Json, messageTime: Json, eventType: Json) returns (r: Result<Record>)
    ensures r == Envelope(mail, messageId, messageTime, eventType)
  {
    var logDetail: Record := [];
    logDetail := Put(logDetail, "MessageId", messageId);
    logDetail := Put(logDetail, "MessageTime", messageTime);
    logDetail := Put(logDetail, "EventType", eventType);
    logDetail := Put(logDetail, "FromAddress", Field(mail, "source"));
    var subject := Get(FieldOr(mail, "commonHeaders", JObj(map[])), "subject", JNull);
    if subject.Err? {
      r := Err(subject.error);
      return;
    }
    logDetail := Put(logDetail, "Subject", subject.value);
    var destinations := SetList(Field(mail, "destination"));
    if destinations.Err? {
      r := Err(destinations.error);
      return;
    }
    logDetail := Put(logDetail, "DestinationAddress", JList(destinations.value));
    EnvelopeAssignments(messageId, messageTime, eventType, Field(mail, "source"), subject.value, JList(destinations.value));
    r := Ok(logDetail);
  }

  /** `if v := tags.get(tag): d[key] = next(iter(v or []), None) elif v := mail.get(fallback): d[key] = v`. */
  method AssignTagOrFallback(mail: Json, tags: Json, tag: string, fallback: string, key: string, logDetail: Record)
    returns (r: Result<Record>)
    requires mail.JObj? && key !in Keys(logDetail)
    ensures r.Err? <==> TagOrFallback(mail, tags, tag, fallback).Err?
    ensures r.Err? ==> r.error == TagOrFallback(mail, tags, tag, fallback).error
    ensures r.Ok? ==> r.value == logDetail + OptionalItem(key, TagOrFallback(mail, tags, tag, fallback).value)
  {
    var v := Get(tags, tag, JNull);
    if v.Err? {
      r := Err(v.error);
      return;
    }
    PutFresh(logDetail, key, JNull);
    if Truthy(v.value) {
      var first := FirstOrNone(v.value);
      if first.Err? {
        r := Err(first.error);
        return;
      }
      PutFresh(logDetail, key, first.value);
      r := Ok(Put(logDetail, key, first.value));
    } else if Truthy(Field(mail, fallback)) {
      PutFresh(logDetail, key, Field(mail, fallback));
      r := Ok(Put(logDetail, key, Field(mail, fallback)));
    } else {
      r := Ok(logDetail);
    }
  }

  /** `if v := tags.get('ses:configuration-set'): d['ConfigSet'] = next(iter(v or []), None) else: d['ConfigSet'] = None`. */
  method AssignConfigSet(tags: Json, logDetail: Record) returns (r: Result<Record>)
    requires "ConfigSet" !in Keys(logDetail)
    ensures r.Err? <==> ConfigSetOf(tags).Err?
    ensures r.Err? ==> r.error == ConfigSetOf(tags).error
    ensures r.Ok? ==> r.value == logDetail + [("ConfigSet", ConfigSetOf(tags).value)]
  {
    var v := Get(tags, "ses:configuration-set", JNull);
    if v.Err? {
      r := Err(v.error);
      return;
    }
    if Truthy(v.value) {
      var first := FirstOrNone(v.value);
      if first.Err? {
        r := Err(first.error);
        return;
      }
      PutFresh(logDetail, "ConfigSet", first.value);
      r := Ok(Put(logDetail, "ConfigSet", first.value));
    } else {
      PutFresh(logDetail, "ConfigSet", JNull);
      r := Ok(Put(logDetail, "ConfigSet", JNull));
    }
  }

  /** The base record as the handler builds it: the envelope, then the three tag-derived keys. */
  method BuildLogDetail(mail: Json, tags: Json, messageId: Json, messageTime: Json, eventType: Json)
    returns (r: Result<Record>)
    requires mail.JObj?
    ensures r == BaseRecord(mail, tags, messageId, messageTime, eventType)
  {
    var envelope := BuildEnvelope(mail, messageId, messageTime, eventType);
    if envelope.Err? {
      r := Err(envelope.error);
      return;
    }
    var withIp := AssignTagOrFallback(mail, tags, "ses:source-ip", "sourceIp", "SourceIp", envelope.value);
    if withIp.Err? {
      r := Err(withIp.error);
      return;
    }
    ghost var sourceIp := TagOrFallback(mail, tags, "ses:source-ip", "sourceIp").value;
    KeysAppend(envelope.value, "SourceIp", sourceIp);
    var withConfigSet := AssignConfigSet(tags, withIp.value);
    if withConfigSet.Err? {
      r := Err(withConfigSet.error);
      return;
    }
    ghost var configSet := ConfigSetOf(tags).value;
    KeysAppend(withIp.value, "ConfigSet", Some(configSet));
    var withIamUser := AssignTagOrFallback(mail, tags, "ses:caller-identity", "callerIdentity", "IAMUser", withConfigSet.value);
    if withIamUser.Err? {
      r := Err(withIamUser.error);
      return;
    }
    ghost var iamUser := TagOrFallback(mail, tags, "ses:caller-identity", "callerIdentity").value;
    assert withIamUser.value == envelope.value + (OptionalItem("SourceIp", sourceIp) + ([("ConfigSet", configSet)] + OptionalItem("IAMUser", iamUser)));
    r := withIamUser;
  }

  /** `lambda_handler`: the record is built key by key and merged with the kind's fields,
      then published. What it decides is `Handle`; what it does to the log service and the
      logger is what the publisher does, the critical diagnostic for an unhandled type, or
      nothing. */
  method LambdaHandler(logs: LogsClient, log: Logger, env: Env, c: Codecs, event: Json) returns (o: Outcome)
    modifies logs, log
    ensures o == Handle(event, c)
    ensures o.Publish? ==>
      var created := NextOr(old(logs.createReplies), Created);
      && logs.calls == old(logs.calls) + PublishCalls(env, c, o.messageId, o.record, created)
      && logs.createReplies == Rest(old(logs.createReplies))
      && logs.putReplies == (if created == CreateFailed then old(logs.putReplies) else Rest(old(logs.putReplies)))
      && log.entries == old(log.entries)
           + PublishDiagnostics(StreamName(env.dmy, o.messageId, c), created, NextOr(old(logs.putReplies), true))
    ensures !o.Publish? ==>
      && logs.calls == old(logs.calls)
      && logs.createReplies == old(logs.createReplies) && logs.putReplies == old(logs.putReplies)
    ensures o.Unhandled? ==> log.entries == old(log.entries) + [UnhandledMessageType(o.eventType)]
    ensures !o.Publish? && !o.Unhandled? ==> log.entries == old(log.entries)
  {
    var raw := SnsField(event, "Message");
    if raw.Err? {
      o := if raw.error == KeyError || raw.error == IndexError then Dropped else Raised(raw.error);
      return;
    }
    var decoded := Loads(c, raw.value);
    if decoded.Err? {
      o := Raised(decoded.error);
      return;
    }
    var message := decoded.value;
    var mailGot := Get(message, "mail", JObj(map[]));
    if mailGot.Err? {
      o := Raised(mailGot.error);
      return;
    }
    var mail := mailGot.value;
    var tagsGot := Get(mail, "tags", JObj(map[]));
    if tagsGot.Err? {
      o := Raised(tagsGot.error);
      return;
    }
    var tags := tagsGot.value;
    if !Truthy(mail) {
      o := Dropped;
      return;
    }
    var messageTime := SnsField(event, "Timestamp");
    if messageTime.Err? {
      o := Raised(messageTime.error);
      return;
    }
    var eventType := EventTypeOf(message);

    var messageId := Subscript(mail, Key("messageId"));
    if messageId.Err? {
      o := Raised(messageId.error);
      return;
    }
    var built := BuildLogDetail(mail, tags, messageId.value, messageTime.value, eventType);
    if built.Err? {
      o := Raised(built.error);
      return;
    }
    var logDetail := built.value;
    var kind := Dispatch(eventType);
    if kind.Err? {
      o := Raised(kind.error);
      return;
    }
    if kind.value.None? {
      log.Log(UnhandledMessageType(eventType));
      o := Unhandled(eventType);
      return;
    }
    var fields := Extract(kind.value.value, message, c);
    if fields.Err? {
      o := Raised(fields.error);
      return;
    }
    logDetail := Update(logDetail, fields.value);
    PublishToCloudwatch(logs, log, env, c, messageId.value, logDetail);
    o := Publish(messageId.value, logDetail);
  }
}
