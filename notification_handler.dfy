/** The notification handler: it turns a Bounce, Complaint or Delivery notification into one
    DynamoDB item per affected address. The items share every attribute except `UserId`. */
module NotificationHandler {
  import opened PyJson
  import opened Logging

  /** A DynamoDB item as the handler builds it: a dictionary of attributes. */
  type Item = map<string, Json>

  /** The table the handler writes to. Only the items written to it are modelled. */
  class Table {
    const name: Option<string>
    var items: seq<Item>

    constructor (name: Option<string>)
      ensures this.name == name && items == []
    {
      this.name := name;
      items := [];
    }

    method PutItem(item: Item)
      modifies this
      ensures items == old(items) + [item]
    {
      items := items + [item];
    }
  }

  /** What the handler decides before it writes anything: the attributes shared by every
      item, and the addresses to fan out to. */
  datatype Plan = Plan(item: Item, addresses: seq<Json>)

  /** `[recipient['emailAddress'] for recipient in recipients]`. */
  function EmailAddresses(recipients: seq<Json>): (r: Result<seq<Json>>)
    ensures r.Ok? <==> forall i :: 0 <= i < |recipients| ==> Subscript(recipients[i], Key("emailAddress")).Ok?
    ensures r.Ok? ==> |r.value| == |recipients|
    ensures r.Ok? ==> forall i :: 0 <= i < |recipients| ==> r.value[i] == Subscript(recipients[i], Key("emailAddress")).value
    ensures r.Err? ==> r.error == KeyError || r.error == TypeError
  {
    if recipients == [] then Ok([])
    else
      var head := Subscript(recipients[0], Key("emailAddress"));
      if head.Err? then Err(head.error)
      else
        var tail := EmailAddresses(recipients[1..]);
        if tail.Err? then Err(tail.error)
        else Ok([head.value] + tail.value)
  }

  /** The addresses of a bounce or a complaint: `detail.get(listKey)` must be iterable, and each
      of its entries must carry an `emailAddress`. */
  function Recipients(detail: Json, listKey: string): (r: Result<seq<Json>>)
    ensures r.Ok? <==> detail.JObj? && Iterate(Field(detail, listKey)).Ok? && EmailAddresses(Iterate(Field(detail, listKey)).value).Ok?
    ensures r.Ok? ==> r.value == EmailAddresses(Iterate(Field(detail, listKey)).value).value
    ensures r.Err? ==> r.error != InvalidMessageType
  {
    var recipients :- Get(detail, listKey, JNull);
    var entries :- Iterate(recipients);
    EmailAddresses(entries)
  }

  /** The item shared by every write before the kind's own attributes are added. */
  function BaseItem(publishTime: Json, notificationType: Json): Item {
    map["PublishTime" := publishTime, "NotificationType" := notificationType]
  }

  predicate IsKnownType(notificationType: Json) {
    notificationType == JStr("Bounce") || notificationType == JStr("Complaint") || notificationType == JStr("Delivery")
  }

  /** The plan for a decoded message whose `mail` and timestamp have been read: dispatch is on
      `notificationType` alone. */
  function Classify(message: Json, mail: Json, publishTime: Json): (r: Result<Plan>)
    requires message.JObj?
    ensures var t := Field(message, "notificationType");
      r == Err(InvalidMessageType) <==> !IsKnownType(t)
    ensures r.Ok? ==>
      && "PublishTime" in r.value.item && "NotificationType" in r.value.item
      && r.value.item["PublishTime"] == publishTime
      && r.value.item["NotificationType"] == Field(message, "notificationType")
    ensures var d := Field(message, "bounce");
      Field(message, "notificationType") == JStr("Bounce") ==>
        && (r.Ok? <==> Recipients(d, "bouncedRecipients").Ok?)
        && (r.Ok? ==>
              && r.value.addresses == Recipients(d, "bouncedRecipients").value
              && r.value.item.Keys == {"PublishTime", "NotificationType", "BounceType", "BounceSubType"}
              && r.value.item["BounceType"] == Field(d, "bounceType")
              && r.value.item["BounceSubType"] == Field(d, "bounceSubType"))
    ensures var d := Field(message, "complaint");
      Field(message, "notificationType") == JStr("Complaint") ==>
        && (r.Ok? <==> Recipients(d, "complainedRecipients").Ok?)
        && (r.Ok? ==>
              && r.value.addresses == Recipients(d, "complainedRecipients").value
              && r.value.item.Keys == {"PublishTime", "NotificationType", "FeedbackId", "FeedbackType"}
              && r.value.item["FeedbackId"] == Field(d, "feedbackId")
              && r.value.item["FeedbackType"] == Field(d, "complaintFeedbackType"))
    ensures Field(message, "notificationType") == JStr("Delivery") ==>
      && (r.Ok? <==> Subscript(mail, Key("destination")).Ok? && Iterate(Subscript(mail, Key("destination")).value).Ok?)
      && (r.Ok? ==>
            && r.value.addresses == Iterate(Subscript(mail, Key("destination")).value).value
            && r.value.item.Keys == {"PublishTime", "NotificationType"})
  {
    var notificationType := Field(message, "notificationType");
    var item := BaseItem(publishTime, notificationType);
    if notificationType == JStr("Bounce") then
      var detail := Field(message, "bounce");
      var addresses :- Recipients(detail, "bouncedRecipients");
      Ok(Plan(item["BounceType" := Field(detail, "bounceType")]["BounceSubType" := Field(detail, "bounceSubType")], addresses))
    else if notificationType == JStr("Complaint") then
      var detail := Field(message, "complaint");
      var addresses :- Recipients(detail, "complainedRecipients");
      Ok(Plan(item["FeedbackId" := Field(detail, "feedbackId")]["FeedbackType" := Field(detail, "complaintFeedbackType")], addresses))
    else if notificationType == JStr("Delivery") then
      var destination :- Subscript(mail, Key("destination"));
      var addresses :- Iterate(destination);
      Ok(Plan(item, addresses))
    else
      Err(InvalidMessageType)
  }

  /** The reads before the classification succeed: the SNS message decodes, it has a `mail`
      with a `messageId`, and the notification carries a `Timestamp`. */
  predicate ReadsSucceed(event: Json, c: Codecs) {
    && SnsMessage(event, c).Ok?
    && Subscript(SnsMessage(event, c).value, Key("mail")).Ok?
    && Subscript(Subscript(SnsMessage(event, c).value, Key("mail")).value, Key("messageId")).Ok?
    && SnsField(event, "Timestamp").Ok?
  }

  /** The whole decision of the handler for one event. */
  function PlanOf(event: Json, c: Codecs): (r: Result<Plan>)
    ensures ReadsSucceed(event, c) ==>
      var message := SnsMessage(event, c).value;
      && message.JObj?
      && r == Classify(message, Subscript(message, Key("mail")).value, SnsField(event, "Timestamp").value)
    ensures !ReadsSucceed(event, c) ==> r.Err? && r.error != InvalidMessageType
    ensures r.Ok? ==>
      && SnsMessage(event, c).Ok? && SnsMessage(event, c).value.JObj?
      && IsKnownType(Field(SnsMessage(event, c).value, "notificationType"))
      && SnsField(event, "Timestamp").Ok?
      && "PublishTime" in r.value.item
      && r.value.item["PublishTime"] == SnsField(event, "Timestamp").value
    ensures r == Err(InvalidMessageType) ==>
      && SnsMessage(event, c).Ok? && SnsMessage(event, c).value.JObj?
      && !IsKnownType(Field(SnsMessage(event, c).value, "notificationType"))
  {
    var message :- SnsMessage(event, c);
    var mail :- Subscript(message, Key("mail"));
    var messageId :- Subscript(mail, Key("messageId"));
    var publishTime :- SnsField(event, "Timestamp");
    Classify(message, mail, publishTime)
  }

  /** Only `notificationType` decides the kind: a message's other top-level keys, such as an
      `eventType` written by a configuration set, change nothing. */
  lemma OnlyNotificationTypeDecides(m: map<string, Json>, mail: Json, publishTime: Json, key: string, v: Json)
    requires key !in {"mail", "notificationType", "bounce", "complaint"}
    ensures Classify(JObj(m[key := v]), mail, publishTime) == Classify(JObj(m), mail, publishTime)
  {
    assert Field(JObj(m[key := v]), "notificationType") == Field(JObj(m), "notificationType");
    assert Field(JObj(m[key := v]), "bounce") == Field(JObj(m), "bounce");
    assert Field(JObj(m[key := v]), "complaint") == Field(JObj(m), "complaint");
  }

  /** For a delivery the addresses are the destination list itself, in order and with
      repetitions, whatever else `mail` holds. */
  lemma DeliveryKeepsDestinations(m: map<string, Json>, mail: Json, dest: seq<Json>, publishTime: Json)
    requires "notificationType" in m && m["notificationType"] == JStr("Delivery")
    requires mail.JObj? && "destination" in mail.fields && mail.fields["destination"] == JList(dest)
    ensures Classify(JObj(m), mail, publishTime) == Ok(Plan(BaseItem(publishTime, JStr("Delivery")), dest))
  {
  }

  /** A delivery whose `destination` is a string is fanned out over its characters, one item
      per character: iterating a Python string yields its one-character strings. */
  lemma DeliveryStringDestination(m: map<string, Json>, mail: Json, dest: string, publishTime: Json)
    requires "notificationType" in m && m["notificationType"] == JStr("Delivery")
    requires mail.JObj? && "destination" in mail.fields && mail.fields["destination"] == JStr(dest)
    ensures Classify(JObj(m), mail, publishTime) == Ok(Plan(BaseItem(publishTime, JStr("Delivery")), Chars(dest)))
    ensures |Items(Plan(BaseItem(publishTime, JStr("Delivery")), Chars(dest)))| == |dest|
  {
  }

  /** The items the fan-out writes: the shared item with `UserId` set to each address in turn. */
  function Items(p: Plan): (r: seq<Item>)
    ensures |r| == |p.addresses|
  {
    seq(|p.addresses|, i requires 0 <= i < |p.addresses| => p.item["UserId" := p.addresses[i]])
  }

  /** The i-th write carries the i-th address and, apart from `UserId`, exactly the shared item. */
  lemma ItemShape(p: Plan, i: nat)
    requires i < |p.addresses| && "UserId" !in p.item
    ensures Items(p)[i]["UserId"] == p.addresses[i]
    ensures Items(p)[i].Keys == p.item.Keys + {"UserId"}
    ensures Items(p)[i] - {"UserId"} == p.item
  {
  }

  /** Any two writes agree on everything but `UserId`. */
  lemma OnlyUserIdDiffers(p: Plan, i: nat, j: nat)
    requires i < |p.addresses| && j < |p.addresses| && "UserId" !in p.item
    ensures Items(p)[i] - {"UserId"} == Items(p)[j] - {"UserId"}
    ensures Items(p)[i].Keys == Items(p)[j].Keys
  {
    ItemShape(p, i);
    ItemShape(p, j);
  }

  /** A plan never carries `UserId` before the fan-out sets it. */
  lemma PlanHasNoUserId(event: Json, c: Codecs)
    requires PlanOf(event, c).Ok?
    ensures "UserId" !in PlanOf(event, c).value.item
  {
    var message := SnsMessage(event, c).value;
    var mail := Subscript(message, Key("mail")).value;
    var publishTime := SnsField(event, "Timestamp").value;
    assert PlanOf(event, c) == Classify(message, mail, publishTime);
  }

  /** `lambda_handler`: decode, classify, and issue one `put_item` per address, reusing one
      dictionary whose `UserId` is overwritten before each write. An unknown type logs a
      critical diagnostic and raises before any write; any other exception also escapes
      with nothing written. */
  method LambdaHandler(table: Table, log: Logger, c: Codecs, event: Json) returns (raised: Option<PyError>)
    modifies table, log
    ensures var p := PlanOf(event, c);
      && (p.Ok? ==> raised == None && table.items == old(table.items) + Items(p.value))
      && (p.Err? ==> raised == Some(p.error) && table.items == old(table.items))
    ensures PlanOf(event, c) == Err(InvalidMessageType) ==>
      log.entries == old(log.entries) + [UnknownMessageType(Field(SnsMessage(event, c).value, "notificationType"))]
    ensures PlanOf(event, c) != Err(InvalidMessageType) ==> log.entries == old(log.entries)
  {
    var decoded := SnsMessage(event, c);
    if decoded.Err? {
      return Some(decoded.error);
    }
    var message := decoded.value;
    var mail := Subscript(message, Key("mail"));
    if mail.Err? {
      return Some(mail.error);
    }
    var messageId := Subscript(mail.value, Key("messageId"));
    if messageId.Err? {
      return Some(messageId.error);
    }
    var publishTime := SnsField(event, "Timestamp");
    if publishTime.Err? {
      return Some(publishTime.error);
    }
    var notificationType := Field(message, "notificationType");
    var ddbItem := BaseItem(publishTime.value, notificationType);
    var isBounce := notificationType == JStr("Bounce");
    var isComplaint := notificationType == JStr("Complaint");
    var isDelivery := notificationType == JStr("Delivery");

    var addresses: seq<Json>;
    if isBounce {
      var detail := Field(message, "bounce");
      var found := Recipients(detail, "bouncedRecipients");
      if found.Err? {
        return Some(found.error);
      }
      addresses := found.value;
      ddbItem := ddbItem["BounceType" := Field(detail, "bounceType")];
      ddbItem := ddbItem["BounceSubType" := Field(detail, "bounceSubType")];
    } else if isComplaint {
      var detail := Field(message, "complaint");
      var found := Recipients(detail, "complainedRecipients");
      if found.Err? {
        return Some(found.error);
      }
      addresses := found.value;
      ddbItem := ddbItem["FeedbackId" := Field(detail, "feedbackId")];
      ddbItem := ddbItem["FeedbackType" := Field(detail, "complaintFeedbackType")];
    } else if isDelivery {
      var destination := Subscript(mail.value, Key("destination"));
      if destination.Err? {
        return Some(destination.error);
      }
      // The destination is only iterated by the loop below.
      var entries := Iterate(destination.value);
      if entries.Err? {
        return Some(entries.error);
      }
      addresses := entries.value;
    } else {
      log.Log(UnknownMessageType(notificationType));
      return Some(InvalidMessageType);
    }

    assert PlanOf(event, c) == Ok(Plan(ddbItem, addresses));
    FanOut(table, ddbItem, addresses, isBounce);
    return None;
  }

  /** `for address in addresses: ddb_item['UserId'] = address; handler_table.put_item(Item=ddb_item)`,
      with the bounce type read into a local nobody uses. */
  method FanOut(table: Table, item: Item, addresses: seq<Json>, isBounce: bool)
    modifies table
    ensures table.items == old(table.items) + Items(Plan(item, addresses))
  {
    ghost var plan := Plan(item, addresses);
    var ddbItem := item;
    var i := 0;
    while i < |addresses|
      invariant 0 <= i <= |addresses|
      invariant table.items == old(table.items) + Items(plan)[..i]
      invariant ddbItem == if i == 0 then item else item["UserId" := addresses[i - 1]]
    {
      if isBounce {
        var bounceType := if "BounceType" in ddbItem then ddbItem["BounceType"] else JNull;
      }
      ddbItem := ddbItem["UserId" := addresses[i]];
      assert ddbItem == item["UserId" := addresses[i]] == Items(plan)[i];
      table.PutItem(ddbItem);
      assert Items(plan)[..i + 1] == Items(plan)[..i] + [ddbItem];
      i := i + 1;
    }
    assert Items(plan)[..i] == Items(plan);
  }
}
