# AMQP transport for the protoevent event bus, modelled in Dafny

This project models the reliable-transport core of the PHP package
`quarks-tech/protoevent-amqp-php`. The package moves CloudEvents-style
envelopes over RabbitMQ through the php-amqp extension. The model covers
four parts:

- **The envelope codec.** `Encoding` dispatches on the content type.
  `application/cloudevents+json` selects the structured format (`StructuredEncoding`):
  the whole event is one JSON object in the body. Anything else selects the
  binary format (`BinaryEncoding`): attributes travel as `cloudEvents:*` headers.
  `Wire` holds the JSON object both formats write, and `Messages` holds the
  outgoing `AMQPMessage` record and the incoming broker envelope.
- **The parking-lot transport** (`ParkingLotTransport`), with its receiver
  options (`ReceiverOptions`). It publishes by event type and receives with
  the broker headers and delivery tag attached. It acknowledges a delivery
  and, on `reject`, decides from the `x-death` header whether to requeue the
  delivery (one `nack`) or park it: publish it to `<queue>.dlx` with the
  `parkinglot` key, then ack it.
- **The parking-lot topology manager** (`ParkingLotConnection`). It opens
  its connection and channel lazily and caches exchange and queue handles
  by name. Its `setupTopology` builds the retry loop:
  - the main queue dead-letters to `<queue>.dlx` with key `wait`;
  - the wait queue `<queue>.wait` dead-letters back with key `retry` after
    the back-off TTL;
  - the parking-lot queue `<queue>.pl` is bound with key `parkinglot`.
- **The first revision** (`LegacyTransport`, `LegacyConnection`). Its
  `reject` always nacks. Its `setup` declares the main queue, optionally
  behind a `<queue>.dlx` fanout exchange and queue, and binds the queue for
  every event.

**How state is modelled.**
- The transports hold a `ConnectionCalls.RecordingConnection`. It records
  every call it accepts, refuses the call kinds the broker rejects (an
  AMQPException, rethrown as a TransportException), and hands out waiting
  messages.
- Each transport method is proved equal to a pure effect function
  (`PublishEffect`, `RejectEffect`, …). The transport's promises are lemmas
  about those functions.
- The topology managers are classes with the source's fields. Each method is
  tied to a step function on a `State` snapshot that includes the log of
  broker operations (`Broker.Op`). Lemmas about the step functions state the
  topology the log builds and where each binding routes.

**Library calls.** `json_encode`, `json_decode` and the RFC 3339 check of
`DateTime::createFromFormat` are parameters (`Json.Platform`). The JSON laws
(`Json.Lawful`) are a precondition wherever they are needed. The laws say
that `json_decode` gives values in canonical form (`Json.Canonical`), and
that text `json_encode` writes for a canonical value decodes back to it.
Exceptions become `Outcomes.Error` values.

## Behaviour the lemmas pin down

Each point below is how the code behaves, set against what the package
itself shows about its use. The named lemmas prove the behaviour as written.

- **Binary round trip.** `Encoder` sends every content type other than
  CloudEvents JSON to `BinaryEncoder` in both directions
  (src/Encoding/Encoder.php:24-40), pairing its `encode` with its `decode`.
  Yet `encode` never sets the broker `type` property, and `decode` rejects
  a message without one, so a binary message this code writes never decodes
  (`BinaryEncoding.EncodedNeverDecodes`). Even with a `type`, an empty
  subject or data schema is left out at encode time and then required at
  decode time (`BinaryEncoding.OmittedOptionalHeaderNeverDecodes`).
- **Structured round trip.** The structured tests encode and decode the same
  BookCreated event (tests/Encoding/StructuredEncoderTest.php:12-53). In
  general the round trip holds only for the envelopes
  `StructuredEncoding.Carried` describes:
  - subject, data schema and extensions are empty, because none of them is
    written;
  - with the CloudEvents JSON content type, the body is JSON text that the
    library writes back identically under `JSON_FORCE_OBJECT`, so a body
    holding a list comes back with an object in its place;
  - with any other content type, the body is a value JSON carries unchanged.
- **Known keys.** The decoder's known-key list names `datacontenttype`
  twice. This has no effect (`Wire.KnownKeys`).
- **Event types without a ".".** `publish` takes the part before the last
  "." as the exchange. The package's own event types are qualified names
  such as `example.books.v1.BookCreated`. For a type without a ".",
  `publish` and the `setup` bindings derive different routing keys
  (`EventTypes.DotlessRoutesDiffer`).
- **The queue cache.** Handles are cached by name, and the first call fixes
  the arguments. A `get`, `ack` or `nack` before `setup` therefore leaves the
  main queue without its dead-letter arguments
  (`ParkingLotConnection.EarlierGetDropsDeadLettering`,
  `ParkingLotConnection.EarlierAckNackDropsDeadLettering`).
- **The parking-lot `setup` gate.** It compares both options with `=== true`,
  as the demo passes them, so truthy values such as `1` or `"yes"` do
  nothing (`ParkingLotConnection.SetupNeedsIdenticalTrue`). The first
  revision's `setup` tests truthiness instead (`LegacyTransport.SetupGate`).
- **Legacy `get` on an empty queue.** The first revision's connection
  declares a non-nullable `\AMQPEnvelope` return type, so an empty queue
  raises a TypeError and the transport's null check never fires
  (`LegacyTransport.Fetched`).
- **Legacy `reject`.** The first revision's `reject` takes a `requeue`
  argument and ignores it (`LegacyTransport.RejectIgnoresRequeue`).
- **Connect failures.** The transports rethrow every AMQPException from a
  call, connect failures included, as a TransportException, modelled as
  `TransportFailed`. An unreachable broker is not reported separately.

## Model

| member | source | states |
|---|---|---|
| Messages.NewMessage | src/AMQPMessage.php:11-19 | the message holds exactly the body, flags and attributes it was built with; the getters read them back unchanged |
| Messages.MessageDefaults | src/AMQPMessage.php:11-15 | a message built from a body alone has no flags (AMQP_NOPARAM) and no attributes |
| EventTypes.LastDot | src/ParkingLot/AMQPTransport.php:43 | `strrpos($type, ".")`: the index of a "." with no "." after it |
| EventTypes.Split | src/ParkingLot/AMQPTransport.php:43-45 | with a ".", exchange + "." + routing key rebuilds the type and the routing key has no "."; without one, the exchange is "" and the routing key is the type from offset 1 |
| EventTypes.BindingRoute | src/ParkingLot/AMQPConnection.php:69-71 | the binding split equals the publish split for a type with a "."; without one, both exchange and routing key are "" |
| EventTypes.SplitUnique | src/AMQPTransport.php:39-41 | splitting `e + "." + k` with a dot-free `k` gives back `e` and `k`: the split inverts the join |
| EventTypes.DotlessRoutesDiffer | src/AMQPConnection.php:69-70 | a dotless type "Audit" is published with routing key "udit" but bound with "" |
| Wire.WireObject | src/Encoding/StructuredEncoder.php:26-34 | the written object has exactly the keys source, data, datacontenttype, time, specversion, id, type, in that order |
| Wire.WireObjectFields | src/Encoding/BinaryEncoder.php:43-51 | each written key holds the attribute it is named after, `data` holds the body, and subject and dataschema are absent |
| BinaryEncoding.OptionalHeader | src/Encoding/BinaryEncoder.php:29-39 | an optional header is present, with its value, exactly when the attribute is not PHP-empty ("" and "0" are left out) |
| BinaryEncoding.Headers | src/Encoding/BinaryEncoder.php:23-39 | the header table starts with specversion, id and source and continues with the optional subject, dataschema and time headers, in that order |
| BinaryEncoding.HeadersAreCloudEvents | src/Encoding/BinaryEncoder.php:14-39 | every header `encode` writes is one of the six `cloudEvents:*` names |
| BinaryEncoding.HeadersContents | src/Encoding/BinaryEncoder.php:23-39 | looking up each of the six headers gives its metadata value; an optional header is absent if and only if its attribute is PHP-empty |
| BinaryEncoding.Encode | src/Encoding/BinaryEncoder.php:21-62 | a JSON failure, and only that, is EncodingFailed; otherwise the body is the serialised wire object, the flags are AMQP_NOPARAM and `headers` is the only attribute |
| BinaryEncoding.Decode | src/Encoding/BinaryEncoder.php:64-100 | success exactly when the type property is non-empty, the time header is an RFC 3339 string and the other five headers are strings. Each failure is stated: DecodingFailed for an empty type, a bad time or a missing header; TypeError for an array time; an error for a missing subject or schema. On success the metadata has each header's value, the type and content type come from the broker properties, the body is the raw text and the delivery tag is the only marker |
| BinaryEncoding.EncodedNeverDecodes | src/Encoding/BinaryEncoder.php:53-68 | every binary message `encode` produces fails `decode` with DecodingFailed: no type property is set |
| BinaryEncoding.OmittedOptionalHeaderNeverDecodes | src/Encoding/BinaryEncoder.php:29-91 | headers written for an envelope with an empty subject or data schema never decode, whatever type property is added |
| StructuredEncoding.EncodedData | src/Encoding/StructuredEncoder.php:19-28 | with the CloudEvents JSON content type, `data` is the parsed body (null when malformed), a scalar body being parsed as the string it converts to, and an array body is a TypeError; otherwise the body is written unchanged |
| StructuredEncoding.Encode | src/Encoding/StructuredEncoder.php:17-45 | a TypeError from the body propagates and a JSON failure, and only that, is EncodingFailed; otherwise the body is the serialised wire object, AMQP_NOPARAM, and `content_type` is the only attribute |
| StructuredEncoding.ExtensionsExact | src/Encoding/StructuredEncoder.php:73-77 | the extensions are entries of the object whose keys are not known keys, and every entry with an unknown key is among them |
| StructuredEncoding.ExtensionsAppend | src/Encoding/StructuredEncoder.php:73-77 | the extensions of a concatenation are those of its parts in order: encounter order is kept |
| StructuredEncoding.AddExtensions | src/Encoding/StructuredEncoder.php:75-77 | the `foreach` appends exactly the extensions, in order, to the metadata's extensions and changes nothing else |
| StructuredEncoding.DecodedBody | src/Encoding/StructuredEncoder.php:79-88 | with the CloudEvents JSON content type the body is `data` re-serialised with JSON_FORCE_OBJECT (a failure is DecodingFailed); otherwise `data` itself |
| StructuredEncoding.DecodedMetadata | src/Encoding/StructuredEncoder.php:60-77 | success exactly when specversion, type, source and id are strings and subject, dataschema and datacontenttype are each absent, null or a string; otherwise MetadataRejected. On success the four required attributes are the stored strings, and each optional one is the stored string or "" when absent or null (`?? ''`). The time is the accepted one, and the extensions are exactly the unknown-key entries |
| StructuredEncoding.Decode | src/Encoding/StructuredEncoder.php:47-92 | malformed JSON or a non-array value is DecodingFailed; an array time is a TypeError; a time that is not RFC 3339 is DecodingFailed, and an RFC 3339 time that is not a string is MetadataRejected. Once the time is an accepted string, success holds exactly when the metadata and the body can be built; metadata that cannot be built is MetadataRejected, and a body that cannot be re-encoded is DecodingFailed. A success is DecodedMetadata of the object, with the body DecodedBody of its `data`, no headers and only the delivery tag marker |
| StructuredEncoding.DecodedWireMetadata | src/Encoding/StructuredEncoder.php:60-71 | a written object reads back as the metadata it came from, with subject, data schema and extensions empty |
| StructuredEncoding.DecodedWireExtensions | src/Encoding/StructuredEncoder.php:60-77 | unknown keys following a written object become its extensions, in order, and leave the attributes unchanged |
| StructuredEncoding.NoExtensions | src/Encoding/StructuredEncoder.php:15-34 | an object whose keys are all known, such as every object `encode` writes, has no extensions |
| StructuredEncoding.WireCanonical | src/Encoding/StructuredEncoder.php:26-34 | a written object is in the canonical form `json_decode` gives exactly when its `data` is: its seven keys are distinct attribute names |
| StructuredEncoding.EnvelopeRoundTrip | src/Encoding/StructuredEncoder.php:17-92 | under the JSON law, decoding what `encode` published gives a carried envelope back, with no headers and the delivery tag as its only marker |
| StructuredEncoding.WireRoundTrip | src/Encoding/StructuredEncoder.php:17-92 | a wire object decodes to the metadata it holds; encoding that envelope fails only when the object cannot be serialised, and otherwise publishes the same object with `content_type` set |
| StructuredEncoding.DecodeExtended | src/Encoding/StructuredEncoder.php:47-92 | a written object followed by unknown keys decodes to its metadata with those keys as extensions in order, and a list-free `data` comes back as its JSON text |
| StructuredEncoding.EncodeBookCreated | tests/Encoding/StructuredEncoderTest.php:12-28 | the BookCreated envelope is published as the JSON text of its seven keys in writing order, with the parsed body as `data` |
| StructuredEncoding.DecodeBookCreated | tests/Encoding/StructuredEncoderTest.php:30-53 | the BookCreated message decodes to its metadata with `someextension` as its only extension and the body `{"id":123}` |
| Json.ForceObjectIsListFree | src/Encoding/StructuredEncoder.php:81 | what JSON_FORCE_OBJECT writes contains no list at any depth |
| Json.ForceObjectKeepsListFree | src/Encoding/StructuredEncoder.php:81 | JSON_FORCE_OBJECT leaves a list-free value unchanged, so it is idempotent |
| Encoding.Encode | src/Encoding/Encoder.php:24-31 | structured encoding if and only if the metadata content type is exactly the CloudEvents JSON type, binary otherwise |
| Encoding.Decode | src/Encoding/Encoder.php:33-40 | structured decoding if and only if the message content type is exactly the CloudEvents JSON type, binary otherwise; in either mode a success has no headers and the delivery tag as its only marker |
| Encoding.DispatchSymmetric | src/Encoding/Encoder.php:24-40 | a published message carries the CloudEvents JSON content type exactly when it was encoded in structured mode |
| Encoding.RoundTrip | src/Encoding/Encoder.php:24-40 | through the dispatcher, a carried structured envelope survives publish and delivery, and a binary one always fails with DecodingFailed |
| Encoding.ExactComparison | src/Encoding/Encoder.php:26 | a content type that differs only in case, or by a parameter, selects binary mode |
| ReceiverOptions.Configure | src/ParkingLot/AMQPTransport.php:29-35 | each option the caller gives replaces its default, and each one not given keeps it |
| ReceiverOptions.DefaultOptions | src/ParkingLot/AMQPTransport.php:15-27 | the defaults are: the unnamed queue, no setup, prefetch 3, 3 retries and a 15000 ms back-off |
| ConnectionCalls.Attempt | src/ParkingLot/AMQPTransport.php:49-53 | a refused call reaches nothing and is reported as TransportFailed; an accepted one is recorded once |
| ConnectionCalls.Then | src/ParkingLot/AMQPTransport.php:163-168 | in one try block the second call runs only after the first succeeded, and the first failure is the result |
| ParkingLotTransport.PublishEffect | src/ParkingLot/AMQPTransport.php:41-54 | an encoding failure makes no call; otherwise one publish of the encoded message to the exchange and routing key the type splits into |
| ParkingLotTransport.Received | src/ParkingLot/AMQPTransport.php:85-94 | the envelope received for a message succeeds exactly when decoding does, keeps the decoded metadata and body, carries the broker headers and has the delivery tag marker |
| ParkingLotTransport.Fetched | src/ParkingLot/AMQPTransport.php:59-77 | `get` yields nothing for an empty queue, and otherwise the received envelope or its decoding error |
| ParkingLotTransport.AckCall | src/ParkingLot/AMQPTransport.php:106 | an array marker is a TypeError before any call; a scalar is converted to the string the ack receives |
| ParkingLotTransport.NackCall | src/ParkingLot/AMQPTransport.php:150 | an array marker is a TypeError before any call; a scalar is converted to the string the nack receives |
| ParkingLotTransport.AckEffect | src/ParkingLot/AMQPTransport.php:99-110 | a PHP-empty marker is MissingMarker with no call; a string tag is one ack on the configured queue; every call is an ack on that queue |
| ParkingLotTransport.Deaths | src/ParkingLot/AMQPTransport.php:114-115 | a missing `x-death` header reads as the empty list |
| ParkingLotTransport.FirstMatch | src/ParkingLot/AMQPTransport.php:118-122 | the index of the first death record whose queue is identical to the first-death queue, or the end when none is |
| ParkingLotTransport.CountAtLeast | src/ParkingLot/AMQPTransport.php:120 | the loose `>=` against the limit: numeric for integers, boolean (true only for a zero limit) for null, always true for arrays |
| ParkingLotTransport.RetriesExceeded | src/ParkingLot/AMQPTransport.php:112-126 | exceeded if and only if the headers hold a death array whose first record for the first-death queue has a count reaching the limit; it is never exceeded without an `x-death` array |
| ParkingLotTransport.ParkEffect | src/ParkingLot/AMQPTransport.php:156-169 | an encoding failure makes no call; otherwise a publish to `<queue>.dlx` with key `parkinglot`, followed, only if it succeeded, by the ack of the delivery |
| ParkingLotTransport.RejectDecision | src/ParkingLot/AMQPTransport.php:131-147 | refuse exactly when the marker is PHP-empty; park without requeue; with requeue, park if and only if the retries are exceeded; requeue exactly in the remaining case |
| ParkingLotTransport.RejectEffect | src/ParkingLot/AMQPTransport.php:131-154 | refusing is MissingMarker with no call; parking is the park effect; requeueing is one nack on the configured queue |
| ParkingLotTransport.RejectWithoutRequeueParks | src/ParkingLot/AMQPTransport.php:131-169 | without requeue, whatever the retry history, the calls are exactly the publish to `<queue>.dlx`/`parkinglot` then the ack, in that order |
| ParkingLotTransport.ParkWithoutPublishDoesNotAck | src/ParkingLot/AMQPTransport.php:163-168 | when the publish is refused no call is made at all (no ack), and the failure is TransportFailed |
| ParkingLotTransport.RequeueWithinLimitNacks | src/ParkingLot/AMQPTransport.php:143-153 | with retries left, a requeueing reject is exactly one nack of the tag on the configured queue, and it makes no other kind of call |
| ParkingLotTransport.MissingMarkerMakesNoCall | src/ParkingLot/AMQPTransport.php:99-135 | `ack` and `reject` of an envelope without a delivery tag fail with MissingMarker before any call |
| ParkingLotTransport.SingleDeathRecord | src/ParkingLot/AMQPTransport.php:112-126 | with one death record for the first-death queue, the limit is exceeded if and only if its count reaches it |
| ParkingLotTransport.FirstRecordDecides | src/ParkingLot/AMQPTransport.php:118-122 | records for other queues, and later records for the same queue, are not consulted |
| ParkingLotTransport.DefaultRetryLimit | src/ParkingLot/AMQPTransport.php:112-147 | with the default options, a count of 2 is requeued and a count of 3 is parked |
| ParkingLotTransport.PublishedThenReceived | src/ParkingLot/AMQPTransport.php:41-77 | a carried structured envelope that is published and then delivered is received unchanged, with the delivery tag as its only marker |
| ParkingLotTransport.Transport.constructor | src/ParkingLot/AMQPTransport.php:29-35 | the transport's options are the defaults replaced by the caller's |
| ParkingLotTransport.Transport.Publish | src/ParkingLot/AMQPTransport.php:41-54 | the calls recorded and the status returned are those of PublishEffect, and no pending message is touched |
| ParkingLotTransport.Transport.Get | src/ParkingLot/AMQPTransport.php:59-77 | a refused get is TransportFailed; otherwise one get on the configured queue, whose result is Fetched of the queue's head, which it removes |
| ParkingLotTransport.Transport.Ack | src/ParkingLot/AMQPTransport.php:99-110 | the calls recorded and the status returned are those of AckEffect |
| ParkingLotTransport.Transport.HasExceededRetryCount | src/ParkingLot/AMQPTransport.php:112-126 | the early-returning loop over the death records computes RetriesExceeded |
| ParkingLotTransport.Transport.Reject | src/ParkingLot/AMQPTransport.php:131-154 | the calls recorded and the status returned are those of RejectEffect |
| ParkingLotTransport.Transport.PutIntoParkingLot | src/ParkingLot/AMQPTransport.php:156-169 | the calls recorded and the status returned are those of ParkEffect |
| ParkingLotTransport.Transport.Setup | src/ParkingLot/AMQPTransport.php:174-185 | one setup call with the events, the configured queue and all options, or TransportFailed when refused |
| LegacyTransport.Configure | src/AMQPTransport.php:25-31 | each option the caller gives replaces its default, and each one not given keeps it |
| LegacyTransport.DefaultOptions | src/AMQPTransport.php:17-23 | the defaults are: the unnamed queue, no setup, no requeue, prefetch 3, no DLX |
| LegacyTransport.PublishEffect | src/AMQPTransport.php:37-50 | an encoding failure makes no call (the successful case is PublishSendsBody) |
| LegacyTransport.PublishSendsBody | src/AMQPTransport.php:37-50 | an encoded envelope is published once, as its body text, to the exchange and routing key its type splits into |
| LegacyTransport.Fetched | src/AMQPTransport.php:55-69 | an empty queue is a TypeError; a message is yielded exactly as the codec decodes it |
| LegacyTransport.Stamped | src/AMQPTransport.php:77-85 | the `fetch` callback succeeds exactly when decoding does and sets the delivery tag marker |
| LegacyTransport.StampingIsRedundant | src/AMQPTransport.php:55-85 | `fetch` and `get` hand out the same envelope for the same message: the codec already sets the marker |
| LegacyTransport.AckEffect | src/AMQPTransport.php:90-101 | a PHP-empty marker is MissingMarker with no call; a string tag is one ack on the configured queue; every call is an ack on that queue |
| LegacyTransport.RejectEffect | src/AMQPTransport.php:106-117 | a PHP-empty marker is MissingMarker with no call; a string tag is one nack on the configured queue; every call is a nack on that queue |
| LegacyTransport.RejectIgnoresRequeue | src/AMQPTransport.php:106-117 | rejecting with and without requeue is the same effect, a single nack |
| LegacyTransport.SetupEffect | src/AMQPTransport.php:122-137 | no call unless `setupTopology` is truthy; a null or array `enableDLX` is a TypeError; otherwise one setup call with the events, the DLX flag's truth value and the queue |
| LegacyTransport.SetupGate | src/AMQPTransport.php:122-137 | the defaults make no call, and the truthy string "yes" is enough to run setup |
| LegacyTransport.AckAndRejectVectors | tests/AMQPTransportTest.php:39-75 | on "my_queue_name" with marker "delivery_tag123", ack and reject make exactly one ack and one nack of that pair |
| LegacyTransport.GetWritten | src/AMQPTransport.php:55-69 | a structured message holding a written object is yielded with the metadata it was written from |
| LegacyTransport.GetVector | tests/AMQPTransportTest.php:12-37 | the test's BookCreated message is yielded with exactly the expected metadata |
| LegacyTransport.Transport.constructor | src/AMQPTransport.php:25-31 | the transport's options are the defaults replaced by the caller's |
| LegacyTransport.Transport.Publish | src/AMQPTransport.php:37-50 | the calls recorded and the status returned are those of PublishEffect |
| LegacyTransport.Transport.Get | src/AMQPTransport.php:55-69 | a refused get is TransportFailed; otherwise one get on the configured queue, whose result is Fetched of the queue's head, which it removes |
| LegacyTransport.Transport.Ack | src/AMQPTransport.php:90-101 | the calls recorded and the status returned are those of AckEffect |
| LegacyTransport.Transport.Reject | src/AMQPTransport.php:106-117 | the calls recorded and the status returned are those of RejectEffect |
| LegacyTransport.Transport.Setup | src/AMQPTransport.php:122-137 | the calls recorded and the status returned are those of SetupEffect |
| LegacyConnection.ChannelSpec | src/AMQPConnection.php:102-117 | an open channel is reused unchanged; otherwise the connection is made and channel 0 is opened |
| LegacyConnection.ExchangeStep | src/AMQPConnection.php:124-136 | a cached exchange is returned without touching the channel; a new one is a durable fanout exchange, cached under its name |
| LegacyConnection.QueueStep | src/AMQPConnection.php:143-155 | a cached queue is returned as first created, whatever arguments are passed now; a new one is durable with the given arguments, cached under its name |
| LegacyConnection.GetSpec | src/AMQPConnection.php:93-96 | the head of the queue is taken, and the result is a TypeError exactly when the queue was empty |
| LegacyConnection.PublishLog | src/AMQPConnection.php:33-41 | `publish` on a new exchange opens the channel if needed, creates a durable fanout handle and publishes the body alone with the routing key, AMQP_NOPARAM and no attributes; queues and waiting messages are untouched |
| LegacyConnection.AckNackLog | src/AMQPConnection.php:163-177 | `ack` and `nack` on a cached queue use the cached handle, whatever arguments it has, and change nothing but the log |
| LegacyConnection.BindingsLog | src/AMQPConnection.php:68-73 | the `foreach` binds the cached main queue once per event, to the event's exchange with its routing key, in order |
| LegacyConnection.DlxLog | src/AMQPConnection.php:54-64 | on uncached names, the dead-letter part declares the fanout exchange and the queue `<queue>.dlx` and binds them, caching that queue |
| LegacyConnection.SetupLog | src/AMQPConnection.php:50-74 | on uncached names, `setup` performs exactly: the dead-letter part (with DLX), the main queue declaration with its arguments, one binding per event; the main queue ends up cached |
| LegacyConnection.DeadLettering | src/AMQPConnection.php:50-74 | with DLX, the main queue dead-letters to `<queue>.dlx`, a fanout exchange whose one binding, under any key, is the `<queue>.dlx` queue, so every dead letter reaches that queue; without DLX the main queue has no arguments |
| LegacyConnection.DlxExchange | src/AMQPConnection.php:54-60 | with DLX, `setup` leaves `<queue>.dlx` cached as a fanout exchange |
| LegacyConnection.Connection.constructor | src/AMQPConnection.php:18-25 | the manager starts with no channel, no cached handles and an empty log |
| LegacyConnection.Connection.Channel | src/AMQPConnection.php:102-117 | fails, changing nothing and caching nothing, only when no channel is open and the broker is unreachable; otherwise the state becomes ChannelSpec of the old state |
| LegacyConnection.Connection.Exchange | src/AMQPConnection.php:124-136 | succeeds exactly when the channel is or can be opened, and then the state and handle are ExchangeStep of the old state |
| LegacyConnection.Connection.Queue | src/AMQPConnection.php:143-155 | succeeds exactly when the channel is or can be opened, and then the state and handle are QueueStep of the old state |
| LegacyConnection.Connection.Publish | src/AMQPConnection.php:33-41 | on success the state is PublishSpec of the old one: the body is published with no flags and no attributes |
| LegacyConnection.Connection.DeclareExchange | src/AMQPConnection.php:60 | on success the state is DeclareExchangeStep of the old one; a failure changes nothing |
| LegacyConnection.Connection.DeclareQueue | src/AMQPConnection.php:61-66 | on success the state is DeclareQueueStep of the old one; a failure changes nothing |
| LegacyConnection.Connection.Bind | src/AMQPConnection.php:63-72 | on success the state is BindStep of the old one; a failure changes nothing |
| LegacyConnection.Connection.SetupDeadLetter | src/AMQPConnection.php:54-64 | on success the state is DlxSpec of the old one; a failure changes nothing |
| LegacyConnection.Connection.BindEvents | src/AMQPConnection.php:68-73 | the loop leaves the state at BindingsSpec of the old one |
| LegacyConnection.Connection.Setup | src/AMQPConnection.php:50-74 | on success the state is SetupSpec of the old one; a connect failure changes nothing |
| LegacyConnection.Connection.Get | src/AMQPConnection.php:93-96 | on success the state and result are GetSpec of the old state |
| LegacyConnection.Connection.Ack | src/AMQPConnection.php:163-166 | on success the state is AckSpec of the old one |
| LegacyConnection.Connection.Nack | src/AMQPConnection.php:174-177 | on success the state is NackSpec of the old one |
| ParkingLotConnection.ConnectOps | src/ParkingLot/AMQPConnection.php:220-228 | a fresh connect logs the connection, the new channel, and QoS on it exactly when a setting is stored |
| ParkingLotConnection.ConnectSpec | src/ParkingLot/AMQPConnection.php:211-229 | a live connection is reused unchanged; otherwise a new connection and the next channel are opened, and the caches and QoS setting are kept |
| ParkingLotConnection.ExchangeStep | src/ParkingLot/AMQPConnection.php:156-170 | after connecting, a cached handle is returned whatever type and flags are asked for; a new one gets them and the current channel, and is cached |
| ParkingLotConnection.QueueStep | src/ParkingLot/AMQPConnection.php:177-191 | after connecting, a cached handle is returned whatever arguments are asked for; a new one gets them and the current channel, and is cached |
| ParkingLotConnection.GetSpec | src/ParkingLot/AMQPConnection.php:120-127 | the result is the head of the queue, or None for an empty one, and the head is removed |
| ParkingLotConnection.TopologyLog | src/ParkingLot/AMQPConnection.php:77-101 | on uncached names, `setupTopology` connects if needed and then performs exactly: declare `<queue>.dlx` (topic), declare the wait, parking-lot and main queues with their arguments, then bind wait/`wait`, main/`retry` and parking-lot/`parkinglot` to the DLX; the four handles are cached |
| ParkingLotConnection.RetryLoop | src/ParkingLot/AMQPConnection.php:77-101 | the main queue dead-letters to the DLX with `wait`, which reaches only the wait queue; the wait queue has the back-off as TTL and dead-letters with `retry`, which reaches only the main queue; `parkinglot` reaches only the parking-lot queue |
| ParkingLotConnection.DeclareQueueCached | src/ParkingLot/AMQPConnection.php:177-191 | declaring a cached queue declares the cached handle and ignores the arguments passed now |
| ParkingLotConnection.EarlierGetDropsDeadLettering | src/ParkingLot/AMQPConnection.php:93-96 | after a `get` on the main queue, `setupTopology` keeps the argument-less handle, so the main queue has no dead-letter target |
| ParkingLotConnection.EarlierAckNackDropsDeadLettering | src/ParkingLot/AMQPConnection.php:135-149 | after an `ack` or a `nack` on the main queue, `setupTopology` keeps the argument-less handle, so the main queue has no dead-letter target |
| ParkingLotConnection.ArgumentlessQueueKept | src/ParkingLot/AMQPConnection.php:93-96 | an argument-less main-queue handle survives `setupTopology` unchanged and has no dead-letter target |
| ParkingLotConnection.AckNackLog | src/ParkingLot/AMQPConnection.php:135-149 | `ack` and `nack` connect, use the cached handle or cache a durable one without arguments, and log exactly one ack or nack with the tag (and flags); nothing else changes |
| ParkingLotConnection.GetCachesQueue | src/ParkingLot/AMQPConnection.php:120-127 | `get` on an uncached queue caches a durable handle without arguments |
| ParkingLotConnection.TopologyKeepsQueue | src/ParkingLot/AMQPConnection.php:77-101 | `setupTopology` never replaces the handle already cached for the main queue |
| ParkingLotConnection.BindingsLog | src/ParkingLot/AMQPConnection.php:67-75 | for a non-empty list, every bind uses the same cached handle, the one the first `queue()` call yields, binding it to each event's exchange with its routing key, in order |
| ParkingLotConnection.SetupBothSteps | src/ParkingLot/AMQPConnection.php:56-65 | with both options identical to true, the topology comes first and then the bindings of the main-queue handle carrying the dead-letter arguments |
| ParkingLotConnection.SetupNeedsIdenticalTrue | src/ParkingLot/AMQPConnection.php:56-65 | when neither option is identical to true, `setup` leaves the state unchanged and does not connect |
| ParkingLotConnection.QosAppliedOnFreshConnect | src/ParkingLot/AMQPConnection.php:211-229 | a stored QoS setting is applied only to the channel of a fresh connection; an open connection is left as it is |
| ParkingLotConnection.PublishLog | src/ParkingLot/AMQPConnection.php:39-47 | publishing on a new exchange creates a durable fanout handle and publishes the message's body, flags and attributes with the routing key |
| ParkingLotConnection.Connection.constructor | src/ParkingLot/AMQPConnection.php:26-31 | nothing is connected, nothing is cached and no QoS setting is stored |
| ParkingLotConnection.Connection.Connect | src/ParkingLot/AMQPConnection.php:211-229 | fails, changing nothing, only when no connection is live and the broker is unreachable; otherwise the state becomes ConnectSpec of the old state |
| ParkingLotConnection.Connection.Exchange | src/ParkingLot/AMQPConnection.php:156-170 | succeeds exactly when connected or reachable, and then the state and handle are ExchangeStep of the old state |
| ParkingLotConnection.Connection.Queue | src/ParkingLot/AMQPConnection.php:177-191 | succeeds exactly when connected or reachable, and then the state and handle are QueueStep of the old state |
| ParkingLotConnection.Connection.Publish | src/ParkingLot/AMQPConnection.php:39-47 | on success the state is PublishSpec of the old one; a failure changes nothing |
| ParkingLotConnection.Connection.DeclareExchange | src/ParkingLot/AMQPConnection.php:83 | on success the state is DeclareExchangeStep of the old one |
| ParkingLotConnection.Connection.DeclareQueue | src/ParkingLot/AMQPConnection.php:85-96 | on success the state is DeclareQueueStep of the old one |
| ParkingLotConnection.Connection.Bind | src/ParkingLot/AMQPConnection.php:98-100 | on success the state is BindStep of the old one |
| ParkingLotConnection.Connection.SetupTopology | src/ParkingLot/AMQPConnection.php:77-101 | on success the state is TopologySpec of the old one; a connect failure changes nothing |
| ParkingLotConnection.Connection.SetupBindings | src/ParkingLot/AMQPConnection.php:67-75 | succeeds exactly when there are no events or a connection is available, and then leaves the state at BindingsSpec of the old one |
| ParkingLotConnection.Connection.Setup | src/ParkingLot/AMQPConnection.php:56-65 | succeeds exactly when it need not connect or can; then the state is SetupSpec of the old one |
| ParkingLotConnection.Connection.Get | src/ParkingLot/AMQPConnection.php:120-127 | on success the state and result are GetSpec of the old state |
| ParkingLotConnection.Connection.Ack | src/ParkingLot/AMQPConnection.php:135-138 | on success the state is AckSpec of the old one |
| ParkingLotConnection.Connection.Nack | src/ParkingLot/AMQPConnection.php:146-149 | on success the state is NackSpec of the old one |
| ParkingLotConnection.Connection.SetQualityOfService | src/ParkingLot/AMQPConnection.php:193-199 | only the QoS setting changes, to the given size and count, and the manager itself is returned |

## Left out

- **Broker behaviour.** The broker is not modelled: no dead-lettering, TTL
  expiry or message routing. The topology lemmas state which queues each
  binding and dead-letter argument reaches; they do not simulate delivery.
- **The blocking `fetch`** of both connections (`consume` with a callback)
  is not modelled, because it is an event loop in the extension. Only the
  transports' callbacks are: `ParkingLotTransport.Received` and
  `LegacyTransport.Stamped`.
- **Library calls.** `json_encode`, `json_decode` and `createFromFormat` are
  parameters, because they are foreign library code. The round trips assume
  the JSON laws `Json.Lawful`, and depth limits, float and large-integer
  handling are outside the model.
- Json.Lawful: `json_decode($s, true)` does not tell an empty JSON object
  from an empty list, or `{"0": …}` from `[…]`. The model's values do, so the
  round-trip law is stated only for values in the canonical form
  `Json.Canonical`, the form `json_decode` gives. The model does not say which
  text `json_encode` writes for a value outside that form.
- **The Metadata and Envelope classes** belong to the event bus package and
  are not part of this model. Their constructor and setters are not modelled.
  Every case they would have to refuse is reported as `MetadataRejected`:
  - in structured mode, a required attribute that is absent or not a string;
  - in structured mode, an optional attribute that is present and neither
    null nor a string;
  - in structured mode, a time that passes the RFC 3339 check but is not a
    string (a number, say);
  - in binary mode, a header that is present but not a string.
- **Connection failures.** Only connect can fail in the topology managers,
  and only when the broker is unreachable. A failure of a later operation on
  an open channel is not modelled, and neither is a dropped connection (a
  live `isConnected()` becoming false). In the transports, any call kind can
  be refused.
- **Out-of-scope members:** `getConnection`/`getChannel`, the
  `connectionOptions` passed to php-amqp, and the `extension_loaded('amqp')`
  check in the constructors. They are getters or environment checks with no
  logic of their own.
- **The encoder interface.** The transports use the dispatching `Encoding`
  codec. The injectable encoder interface is not modelled.
- **Receiver options** are a typed record in the model, so an option of
  another PHP type (a non-string queue name, for example) is not modelled.
  Unknown keys are never read, and dropping them changes nothing.
- **Legacy `publish` parameters.** `$headers` and `$delayInMs` are never
  read, so they are not modelled.
- **A `bind` without a routing key** (the dead-letter queue of the first
  revision) is modelled as a binding with the empty key.
- **Generators.** `get` is a PHP generator; the model gives its one result
  eagerly.
- **Death records.** A death record that is a string would raise an error
  in PHP when indexed; the model reads it like any other non-array, as a
  record without a queue.
- ParkingLotTransport.CountAtLeast: a string `count` is read as not
  exceeded. PHP's numeric-string comparison is not modelled, because RabbitMQ
  writes the count as an integer.
- LegacyTransport.PublishEffect: its own contract states only the failure
  case. The successful case is stated separately by
  `LegacyTransport.PublishSendsBody`.
