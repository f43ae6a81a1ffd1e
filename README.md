# SES delivery logger: a Dafny model

The two AWS Lambda handlers of `ses-delivery-logger` are modelled here. Both receive an
Amazon SES email-event notification through SNS.

- **The delivery logger** (`resources/lambda/delivery_logger.py`) first checks the notification.
  It silently drops a notification that has no SNS message or whose `mail` is empty.
  Otherwise it builds an ordered log record:
  - the envelope fields, with the destinations de-duplicated;
  - `SourceIp`, `ConfigSet` and `IAMUser`, taken from the mail tags or from a fallback;
  - the fields of the event kind, chosen from a closed table of eight kinds.

  It then writes the record as one event to a CloudWatch Logs stream named
  `<date>/<message id>`.
- **The notification handler** (`resources/lambda/notification_handler.py`) classifies a
  Bounce, Complaint or Delivery notification and derives its list of addresses. It then
  issues one DynamoDB `put_item` per address. Every item is the same dictionary with
  `UserId` overwritten.

The code is laid out as follows:

- `py_json.dfy` (module `PyJson`) has the parsed JSON value and the Python operations the
  handlers apply to it: subscripts, `dict.get`, truthiness, iteration, hashing into a set,
  and `list(set(...))`. Each operation raises the same error the handlers would.
- `ordered_dict.dfy` (module `OrderedDict`) has `collections.OrderedDict` item assignment and
  `update` on a list of key/value pairs.
- `logging.dfy` (module `Logging`) has the logger as a class that records which diagnostic was
  emitted.
- `delivery_logger.dfy` (module `DeliveryLogger`) contains:
  - the extractors, proved against one per-kind table of output key, detail field and
    encoding (`Columns`), and the dispatch table;
  - record assembly, as `Handle`, with the properties of a published record;
  - the log service as a class with scripted replies that records every call;
  - the imperative `LambdaHandler` and `PublishToCloudwatch`, proved against those functions.
- `notification_handler.dfy` (module `NotificationHandler`) contains:
  - the plan of writes, as `PlanOf`;
  - the table as a class holding the items written;
  - the imperative handler and its fan-out loop.

Several things the handlers depend on are parameters of the model:

- `json.loads`, `json.dumps` (of a value and of the ordered record) and `str` are
  function-valued fields of `Codecs`.
- The date string is computed when the module is loaded. It is part of `Env`, together with
  the log group and the clock reading in milliseconds.
- The replies of the log service to stream creation and to puts are queues given in advance.

## Model

| member | source | states |
|---|---|---|
| `DeliveryLogger.HandleBounce` | resources/lambda/delivery_logger.py:35-44 | succeeds exactly when the message's `bounce` is a dictionary and raises otherwise; the record is the Bounce row of the field table: BounceSummary is the dump of `bouncedRecipients`, ReportingMTA is `reportingMTA` with `''` as default, BounceType and BounceSubType copy `bounceType` and `bounceSubType`, MessageTime copies `timestamp`, in that order |
| `DeliveryLogger.HandleComplaint` | resources/lambda/delivery_logger.py:47-55 | succeeds exactly when `complaint` is a dictionary; the record is the Complaint row of the field table: ComplaintSummary is the dump of `complainedRecipients`, FeedbackId copies `feedbackId`, FeedbackType copies `complaintFeedbackType`, MessageTime copies `arrivalDate`, in that order |
| `DeliveryLogger.HandleDelivery` | resources/lambda/delivery_logger.py:58-66 | succeeds exactly when `delivery` is a dictionary; the record is the Delivery row of the field table: DestinationAddress copies `recipients`, ReportingMTA is `reportingMTA` with `''` as default, SMTPResponse copies `smtpResponse`, MessageTime copies `timestamp`, in that order |
| `DeliveryLogger.HandleDeliveryDelay` | resources/lambda/delivery_logger.py:69-77 | succeeds exactly when `deliveryDelay` is a dictionary; the record is the DeliveryDelay row of the field table: DelayedRecipients is `str` of `delayedRecipients`, ExpirationTime, DelayType and MessageTime copy `expirationTime`, `delayType` and `timestamp`, in that order |
| `DeliveryLogger.HandleReject` | resources/lambda/delivery_logger.py:80-83 | succeeds exactly when `reject` is a dictionary; the record is the single key Reason holding `reject.reason` |
| `DeliveryLogger.HandleClick` | resources/lambda/delivery_logger.py:86-95 | succeeds exactly when `click` is a dictionary; the record is the Click row of the field table: IPAddress and Link copy `ipAddress` and `link`, LinkTags is the dump of `linkTags`, UserAgent and MessageTime copy `userAgent` and `timestamp`, in that order |
| `DeliveryLogger.HandleOpen` | resources/lambda/delivery_logger.py:98-105 | succeeds exactly when `open` is a dictionary; the record is the Open row of the field table: IPAddress, UserAgent and MessageTime copy `ipAddress`, `userAgent` and `timestamp`, in that order |
| `DeliveryLogger.HandleRenderingFailure` | resources/lambda/delivery_logger.py:108-114 | succeeds exactly when `failure` is a dictionary; the record is the RenderingFailure row of the field table: ErrorMessage and TemplateName copy `errorMessage` and `templateName`, in that order |
| `DeliveryLogger.KindOfName` | resources/lambda/delivery_logger.py:234-243 | a string names a kind in the table exactly when the lookup finds that kind |
| `DeliveryLogger.RenderingFailureSpelling` | resources/lambda/delivery_logger.py:242 | the table knows `'Rendering Failure'` with a space and does not know `'RenderingFailure'` |
| `DeliveryLogger.Dispatch` | resources/lambda/delivery_logger.py:244-248 | the membership test raises exactly for a list or an object; it finds a kind exactly when the event type is a string naming one; a found kind's name is the event type |
| `DeliveryLogger.KindKeysOverlap` | resources/lambda/delivery_logger.py:38-114 | an extractor names MessageTime exactly when its kind has a detail timestamp, and names DestinationAddress exactly for Delivery; no extractor names MessageId, EventType, FromAddress, Subject, SourceIp, ConfigSet or IAMUser |
| `DeliveryLogger.Extract` | resources/lambda/delivery_logger.py:234-245 | the kind's action succeeds exactly when its detail is a dictionary; it returns exactly the field table's row for the kind applied to that detail, so the kind's keys each once; MessageTime is the detail's own time field; for Delivery, DestinationAddress is `recipients` |
| `DeliveryLogger.TagOrFallback` | resources/lambda/delivery_logger.py:219-232 | raises exactly when the tags are not a dictionary, or when the tag value is truthy but cannot be iterated to a first element; a truthy tag yields `next(iter(tag))`, so the first element of a list or the first character of a string; otherwise a truthy fallback on `mail` is used; otherwise the key is omitted |
| `DeliveryLogger.ConfigSetOf` | resources/lambda/delivery_logger.py:224-227 | raises exactly when the tags are not a dictionary or when a truthy tag value cannot be iterated; an absent or empty tag gives `None`; a truthy tag gives `next(iter(tag))`, so the first element of a list or the first character of a string |
| `DeliveryLogger.Envelope` | resources/lambda/delivery_logger.py:209-217 | succeeds exactly when `commonHeaders` (default `{}`) is a dictionary and the destinations can be put in a set; the keys are MessageId, MessageTime, EventType, FromAddress, Subject and DestinationAddress in that order, holding the message id, the SNS timestamp, the event type, `mail.source`, the subject, and the destinations without duplicates |
| `DeliveryLogger.BaseItems` | resources/lambda/delivery_logger.py:219-232 | the envelope comes first, unchanged; the keys are exactly the six envelope keys, then SourceIp when given, ConfigSet always, then IAMUser when given; every key occurs once; SourceIp, ConfigSet and IAMUser hold the values given |
| `DeliveryLogger.BaseRecord` | resources/lambda/delivery_logger.py:207-232 | succeeds exactly when the envelope, both tag rules and the configuration-set rule succeed; the keys are exactly the six envelope keys in order, then SourceIp when its rule gives a value, ConfigSet, then IAMUser when its rule gives a value; MessageId, MessageTime, EventType, FromAddress and Subject hold what the envelope gave; DestinationAddress is `mail.destination` without duplicates; SourceIp, ConfigSet and IAMUser follow the tag rules |
| `DeliveryLogger.DiscriminatorPrecedence` | resources/lambda/delivery_logger.py:200-205 | a present `eventType` key decides the event type, even when its value is null; otherwise `notificationType` is read, and a missing one gives null |
| `DeliveryLogger.EventTypeOf` | resources/lambda/delivery_logger.py:200-205 | the event type is the `eventType` field, or when it is absent the `notificationType` field, or null |
| `DeliveryLogger.TypeKey` | resources/lambda/delivery_logger.py:200-204 | the discriminator key is `eventType` exactly when the message is a dictionary holding that key, and `notificationType` otherwise |
| `DeliveryLogger.Handle` | resources/lambda/delivery_logger.py:183-250 | the handler drops the event exactly when it has no SNS message or its `mail` is missing or empty; it logs an event as unhandled exactly when the message decodes, every read before the dispatch succeeds and the hashable event type names no kind; it publishes exactly when, in addition, the type names a kind whose detail is a dictionary; an unhandled type names no kind; a published event's type is one of the eight names |
| `DeliveryLogger.NamedKind` | resources/lambda/delivery_logger.py:244 | a found kind's name is the event type; no kind is found exactly when the type is not a string naming one |
| `DeliveryLogger.Assemble` | resources/lambda/delivery_logger.py:191-250 | after decoding: a message that is not a dictionary raises AttributeError; the event is dropped exactly when `mail` (default `{}`) is empty; it is unhandled exactly when every read before the dispatch succeeds and the type names no kind, with the discriminator's value; it is published exactly when every such read succeeds and the type names a kind whose detail is a dictionary; it never yields a raised outcome as a value |
| `DeliveryLogger.PublishedEnvelope` | resources/lambda/delivery_logger.py:207-217 | a published record starts with the six envelope keys in order and holds every key once; MessageId is `mail.messageId`; EventType is the discriminator's value; FromAddress is `mail.source`; Subject is `commonHeaders.subject` (default `{}` for the headers) |
| `DeliveryLogger.PublishedOverwrites` | resources/lambda/delivery_logger.py:245 | after the merge, MessageTime is the detail's time for the six timed kinds and the SNS timestamp otherwise; DestinationAddress is `recipients` for Delivery and the de-duplicated destinations for every other kind |
| `DeliveryLogger.PublishedDetail` | resources/lambda/delivery_logger.py:234-245 | in a published record, every key of the kind's field-table row holds the value the table prescribes for the message's detail |
| `DeliveryLogger.PublishedTags` | resources/lambda/delivery_logger.py:219-232 | in a published record, SourceIp, ConfigSet and IAMUser are what the tag rules gave, untouched by the merge |
| `DeliveryLogger.PublishedKeys` | resources/lambda/delivery_logger.py:207-245 | a published record's key list is exactly the six envelope keys, then SourceIp when its rule gives a value, ConfigSet, IAMUser when its rule gives a value, then the kind's keys that are not envelope keys, in the extractor's order |
| `DeliveryLogger.AppendedKindKeys` | resources/lambda/delivery_logger.py:35-114 | the keys each kind appends after the base keys are its extractor's keys without MessageTime, and for Delivery also without DestinationAddress (for Bounce: BounceSummary, ReportingMTA, BounceType, BounceSubType) |
| `DeliveryLogger.MergedRecord` | resources/lambda/delivery_logger.py:245 | merging keeps the six envelope keys where they stand; keys the kind names take the kind's values; all other keys keep the base's values |
| `DeliveryLogger.MergedKeepsTags` | resources/lambda/delivery_logger.py:245 | merging never changes SourceIp, ConfigSet or IAMUser |
| `DeliveryLogger.BuildEnvelope` | resources/lambda/delivery_logger.py:207-217 | the key-by-key assignments build exactly the envelope, and raise where it raises |
| `DeliveryLogger.AssignTagOrFallback` | resources/lambda/delivery_logger.py:219-222 | the walrus `if`/`elif` appends the key exactly when the tag rule yields a value, and raises exactly when the rule does |
| `DeliveryLogger.AssignConfigSet` | resources/lambda/delivery_logger.py:224-227 | the `if`/`else` always appends ConfigSet with the tag rule's value, and raises exactly when the rule does |
| `DeliveryLogger.BuildLogDetail` | resources/lambda/delivery_logger.py:207-232 | the imperative assembly yields exactly the base record, or the same error |
| `DeliveryLogger.StreamName` | resources/lambda/delivery_logger.py:119 | the stream name is the date string, then `/`, then the message id as text |
| `DeliveryLogger.StreamPerMessage` | resources/lambda/delivery_logger.py:119 | on one day, two messages share a stream exactly when their ids print the same |
| `DeliveryLogger.PublishCallsShape` | resources/lambda/delivery_logger.py:121-180 | a publish creates the stream first and only once, every later call being a put; a failed creation is followed by no put; otherwise exactly one put follows, to the same stream, with one event holding the serialised record and no sequence token |
| `DeliveryLogger.PublishDiagnostics` | resources/lambda/delivery_logger.py:127-177 | a publish logs at most one diagnostic, always at error level, and logs none exactly when the create did not fail and the put was accepted |
| `DeliveryLogger.LogsClient.CreateLogStream` | resources/lambda/delivery_logger.py:123-126 | answers with the next scripted reply (success by default) and records the call |
| `DeliveryLogger.LogsClient.PutLogEvents` | resources/lambda/delivery_logger.py:161 | answers with the next scripted reply (accepted by default) and records the call |
| `DeliveryLogger.PublishToCloudwatch` | resources/lambda/delivery_logger.py:117-180 | the calls made are those of the shape lemma for the create reply received; only the replies used are consumed; the diagnostics logged are those of the diagnostics function |
| `DeliveryLogger.LambdaHandler` | resources/lambda/delivery_logger.py:183-250 | the imperative handler decides what `Handle` decides; it publishes only a published record; it logs the critical diagnostic exactly for an unhandled type; it touches neither the log service nor the logger otherwise |
| `Logging.Logger.Log` | resources/lambda/delivery_logger.py:247 | appends one diagnostic to what was logged |
| `OrderedDict.Put` | resources/lambda/delivery_logger.py:210-232 | assigning a key replaces its value in place when present and appends it when absent; every other key keeps its value; a dictionary stays a dictionary |
| `OrderedDict.Update` | resources/lambda/delivery_logger.py:245 | `update` keeps existing keys in their positions; keys of the argument take its values; other keys are unchanged; the keys present are the union; for an argument without repeated keys, the key list becomes the old key list followed by the argument's new keys in the argument's order |
| `OrderedDict.NewKeysMembers` | resources/lambda/delivery_logger.py:245 | the keys `update` appends are exactly the argument's keys that were not present |
| `OrderedDict.UpdateKeepsKeys` | resources/lambda/delivery_logger.py:245 | updating with keys already present leaves the key order exactly as it was |
| `OrderedDict.UpdateAppends` | resources/lambda/delivery_logger.py:245 | updating with fresh keys appends them in the argument's order |
| `OrderedDict.LookupKeys` | resources/lambda/delivery_logger.py:245 | a key is found exactly when it is among the keys |
| `PyJson.SetList` | resources/lambda/delivery_logger.py:217 | `list(set(x))` succeeds exactly when `x` iterates to hashable values; the result holds each value once, up to Python equality, and nothing that was not in `x` |
| `PyJson.Dedup` | resources/lambda/delivery_logger.py:217 | the de-duplicated values come from the input, repeat nothing, and are the input's values minus those already seen |
| `PyJson.FirstOrNone` | resources/lambda/delivery_logger.py:220 | `next(iter(v or []), None)` is the first element of a non-empty list, the first character of a non-empty string and `None` for a falsy value; it raises exactly when `v` is truthy and cannot be iterated |
| `PyJson.Get` | resources/lambda/delivery_logger.py:191-192 | `.get` succeeds exactly on a dictionary, giving the field when present and the default otherwise |
| `PyJson.SnsField` | resources/lambda/delivery_logger.py:185-198 | `event['Records'][0]['Sns'][name]` succeeds exactly when the event has that shape, giving the field; otherwise it raises KeyError, IndexError or TypeError; a non-dictionary event raises TypeError, a missing `Records` KeyError and an empty list IndexError |
| `PyJson.SnsMessage` | resources/lambda/notification_handler.py:14 | decoding the SNS message succeeds exactly when the field is a string the decoder accepts, giving its value; a missing field raises the read's error and a non-string TypeError |
| `PyJson.Iterate` | resources/lambda/notification_handler.py:59 | a list iterates to its items, a string to its one-character strings, an empty object to nothing; `None`, booleans and numbers raise TypeError; a non-empty object is the unmodelled key order; no other error arises |
| `NotificationHandler.EmailAddresses` | resources/lambda/notification_handler.py:32-35 | the comprehension succeeds exactly when every recipient has an `emailAddress`; then it holds one address per recipient, in order; otherwise it raises KeyError or TypeError |
| `NotificationHandler.Recipients` | resources/lambda/notification_handler.py:30-44 | succeeds exactly when the detail is a dictionary whose recipient list iterates and every entry has an address; the result is those addresses |
| `NotificationHandler.Classify` | resources/lambda/notification_handler.py:18-54 | raises the invalid-type exception exactly when `notificationType` is none of Bounce, Complaint, Delivery; every item holds PublishTime and NotificationType; Bounce copies BounceType and BounceSubType and takes the bounced addresses; Complaint copies FeedbackId and FeedbackType and takes the complained addresses; Delivery takes what `mail.destination` iterates to and adds nothing |
| `NotificationHandler.PlanOf` | resources/lambda/notification_handler.py:13-54 | when the message decodes, has `mail.messageId` and the notification has an SNS `Timestamp`, the plan is exactly `Classify`'s for that message, `mail` and timestamp (so a known type gets a plan exactly when its kind's reads succeed); when any of those reads fails, it raises an error other than the invalid-type exception; a plan's PublishTime is the SNS timestamp |
| `NotificationHandler.OnlyNotificationTypeDecides` | resources/lambda/notification_handler.py:18-27 | a top-level key other than `mail`, `notificationType`, `bounce` and `complaint`, such as `eventType`, changes nothing |
| `NotificationHandler.DeliveryKeepsDestinations` | resources/lambda/notification_handler.py:49-50 | for a delivery whose `mail.destination` is a list, the addresses are that list itself, in order and with repetitions, whatever else `mail` holds |
| `NotificationHandler.DeliveryStringDestination` | resources/lambda/notification_handler.py:49-64 | a delivery whose `mail.destination` is a string takes its characters as addresses, so one item is written per character |
| `NotificationHandler.ItemShape` | resources/lambda/notification_handler.py:59-64 | the i-th written item has the i-th address as UserId and otherwise exactly the shared attributes |
| `NotificationHandler.OnlyUserIdDiffers` | resources/lambda/notification_handler.py:59-64 | any two written items agree on every attribute except UserId |
| `NotificationHandler.PlanHasNoUserId` | resources/lambda/notification_handler.py:20-47 | the shared attributes never include UserId before the fan-out sets it |
| `NotificationHandler.Items` | resources/lambda/notification_handler.py:59-64 | one item is written per address |
| `NotificationHandler.Table.PutItem` | resources/lambda/notification_handler.py:64 | appends the item to what the table holds |
| `NotificationHandler.FanOut` | resources/lambda/notification_handler.py:59-64 | the loop writes exactly the items of the plan, in address order; the `bounce_type` read inside it has no effect |
| `NotificationHandler.LambdaHandler` | resources/lambda/notification_handler.py:13-64 | with a plan, nothing is raised and exactly the plan's items are written; otherwise the plan's exception is raised and nothing is written; the critical diagnostic is logged exactly for an unknown type |

## Left out

- Floating-point numbers: JSON numbers are integers here. A float's truth value (`0.0` is
  false), its equality with an integer when the destinations are put in a set (`1 == 1.0`)
  and its printed form are not modelled.
- Order of a JSON object's keys: objects are maps. Iterating a non-empty object is therefore
  reported as its own error (`UnorderedObject`), where Python would iterate its keys. This
  matters only where a tag value, a destination or a recipient list is an object.
- PyJson.SetList: Python leaves the order of `list(set(...))` unspecified. The model keeps
  the first occurrences in input order, and its contract states only the elements and that
  none repeats.
- `json.loads`, `json.dumps` and `str` are opaque functions, not serialisers. The text of a
  dumped record is not modelled.
- The logger's message text, the traceback and the error JSON are not modelled. Only which
  diagnostic was emitted, and at which level, is kept.
- boto3 client and resource construction, credentials, environment variables and logger
  configuration are not modelled. The group and table names are plain parameters.
- `datetime.now()` at module load and `time.time()` at publish time are parameters of `Env`.
  The rounding of the clock to milliseconds is not modelled.
- The log service's exceptions are reduced to scripted replies: created, already exists, or
  failed for creation, and accepted or rejected for a put.
- DynamoDB `put_item` failures and throttling are not modelled. Every write succeeds.
- Concurrency between invocations is not modelled.
- DeliveryLogger.PublishToCloudwatch: both branches of the put loop return, so its body runs
  at most once even though `MAX_PUT_ATTEMPTS` is 3. The source's `return` inside the loop is
  written as a `done` flag that ends the loop.
- Sequence tokens and expiry attributes: no sequence token is ever sent to the log service
  and no expiry attribute is written to a stored item; the model follows the code.
- An unknown type in the notification handler is logged and then raised.
