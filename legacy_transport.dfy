/** The transport of the first revision (src/AMQPTransport.php): publish by
    event type, receive without re-stamping, acknowledge, reject by nack
    only, and a `setup` gated by one truthy option. */
module LegacyTransport {
  import opened Outcomes
  import opened Php
  import opened Json
  import opened Envelopes
  import opened Messages
  import opened EventTypes
  import opened ConnectionCalls
  import opened Wire
  import Encoding

  const DefaultPrefetchCount: int := 3

  /** The receiver options as the transport reads them. `setupTopology` is
      tested for truthiness and `enableDLX` is handed to a `bool` parameter,
      so both stay PHP values; `requeueOnError` and `prefetchCount` are never
      read. */
  datatype Options = Options(
    queue: string,
    setupTopology: Value,
    requeueOnError: Value,
    prefetchCount: int,
    enableDlx: Value)

  const Defaults: Options := Options("", Bool(false), Bool(false), DefaultPrefetchCount, Bool(false))

  datatype Overrides = Overrides(
    queue: Option<string>,
    setupTopology: Option<Value>,
    requeueOnError: Option<Value>,
    prefetchCount: Option<int>,
    enableDlx: Option<Value>)

  const NoOverrides: Overrides := Overrides(None, None, None, None, None)

  /** `array_replace_recursive($defaults, $options)` over scalar defaults. */
  function Configure(o: Overrides): (r: Options)
    ensures o.queue.Some? ==> r.queue == o.queue.value
    ensures o.queue.None? ==> r.queue == Defaults.queue
    ensures o.setupTopology.Some? ==> r.setupTopology == o.setupTopology.value
    ensures o.setupTopology.None? ==> r.setupTopology == Defaults.setupTopology
    ensures o.requeueOnError.Some? ==> r.requeueOnError == o.requeueOnError.value
    ensures o.requeueOnError.None? ==> r.requeueOnError == Defaults.requeueOnError
    ensures o.prefetchCount.Some? ==> r.prefetchCount == o.prefetchCount.value
    ensures o.prefetchCount.None? ==> r.prefetchCount == Defaults.prefetchCount
    ensures o.enableDlx.Some? ==> r.enableDlx == o.enableDlx.value
    ensures o.enableDlx.None? ==> r.enableDlx == Defaults.enableDlx
  {
    Options(
      o.queue.GetOr(Defaults.queue),
      o.setupTopology.GetOr(Defaults.setupTopology),
      o.requeueOnError.GetOr(Defaults.requeueOnError),
      o.prefetchCount.GetOr(Defaults.prefetchCount),
      o.enableDlx.GetOr(Defaults.enableDlx))
  }

  /** With no options: the unnamed queue, no setup, no requeue, a prefetch
      count of three and no dead-letter exchange. */
  lemma DefaultOptions()
    ensures Configure(NoOverrides) == Options("", Bool(false), Bool(false), 3, Bool(false))
  {
  }

  /** `publish`: split the type, encode, then hand only the message body to
      the connection's `string $body` parameter (a non-string body would be
      a TypeError; the encoders only produce strings). */
  function PublishEffect(p: Platform, e: Envelope, refused: set<CallKind>): (r: Effect)
    ensures Encoding.Encode(p, e).Err? ==> r == Effect(Failed(Encoding.Encode(p, e).error), [])
  {
    match Encoding.Encode(p, e)
    case Err(error) => Effect(Failed(error), [])
    case Ok(message) =>
      var route := Split(e.metadata.eventType);
      match message.body
      case Str(body) => Attempt(PublishBody(body, route.exchange, route.routingKey), refused)
      case _ => Effect(Failed(TypeError), [])
  }

  /** An encoded envelope is published exactly once, as its body text, to
      the exchange and routing key its type splits into. */
  lemma PublishSendsBody(p: Platform, e: Envelope, refused: set<CallKind>)
    requires Encoding.Encode(p, e).Ok?
    ensures Encoding.Encode(p, e).value.body.Str?
    ensures var route := Split(e.metadata.eventType);
      PublishEffect(p, e, refused)
        == Attempt(PublishBody(Encoding.Encode(p, e).value.body.s, route.exchange, route.routingKey), refused)
  {
    Encoding.DispatchSymmetric(p, e, "");
  }

  /** `get`: the connection's `get` is declared to return an \AMQPEnvelope, so
      the broker's `false` for an empty queue is a TypeError there and the
      transport's null check never fires; a message is decoded and yielded
      as the codec returns it, with no headers set and no marker re-added. */
  function Fetched(p: Platform, m: Option<BrokerEnvelope>): (r: Result<Envelope>)
    ensures m.None? ==> r == Err(TypeError)
    ensures m.Some? ==> r == Encoding.Decode(p, m.value)
  {
    match m
    case None => Err(TypeError)
    case Some(message) => Encoding.Decode(p, message)
  }

  /** The body of the `fetch` callback: decode, then add the delivery tag
      marker. */
  function Stamped(p: Platform, m: BrokerEnvelope): (r: Result<Envelope>)
    ensures r.Ok? <==> Encoding.Decode(p, m).Ok?
    ensures r.Ok? ==> DeliveryTag(r.value) == Str(m.deliveryTag)
  {
    match Encoding.Decode(p, m)
    case Err(error) => Err(error)
    case Ok(e) => Ok(e.(markers := e.markers[DeliveryTagMarker := Str(m.deliveryTag)]))
  }

  /** The stamp in `fetch` changes nothing: the codec already sets the
      delivery tag as the only marker, so `fetch` and `get` hand out the same
      envelope for the same message. */
  lemma StampingIsRedundant(p: Platform, m: BrokerEnvelope)
    ensures Stamped(p, m) == Fetched(p, Some(m))
  {
    var d := Encoding.Decode(p, m);
    if d.Ok? {
      assert d.value.markers == map[DeliveryTagMarker := Str(m.deliveryTag)];
      assert d.value.markers[DeliveryTagMarker := Str(m.deliveryTag)] == d.value.markers;
    }
  }

  /** The one call `ack` or `reject` makes once the marker is known to be
      non-empty: the tag goes to a `string` parameter (an array is a
      TypeError before the call). */
  function TagCall(call: string -> Call, tag: Value, refused: set<CallKind>): (r: Effect)
    ensures StringArgument(tag).None? ==> r == Effect(Failed(TypeError), [])
    ensures StringArgument(tag).Some? ==> r == Attempt(call(StringArgument(tag).value), refused)
  {
    match StringArgument(tag)
    case None => Effect(Failed(TypeError), [])
    case Some(t) => Attempt(call(t), refused)
  }

  /** `ack`: an empty marker is a logic error with no call; otherwise one ack
      of the tag on the configured queue. */
  function AckEffect(o: Options, e: Envelope, refused: set<CallKind>): (r: Effect)
    ensures Empty(DeliveryTag(e)) ==> r == Effect(Failed(MissingMarker), [])
    ensures !Empty(DeliveryTag(e)) && DeliveryTag(e).Str? ==> r == Attempt(Ack(o.queue, DeliveryTag(e).s), refused)
    ensures forall c :: c in r.calls ==> c.Ack? && c.queue == o.queue
  {
    if Empty(DeliveryTag(e)) then Effect(Failed(MissingMarker), [])
    else TagCall(t => Ack(o.queue, t), DeliveryTag(e), refused)
  }

  /** `reject`: the same guard, then one nack of the tag on the configured
      queue, whatever `requeue` says. */
  function RejectEffect(o: Options, e: Envelope, requeue: bool, refused: set<CallKind>): (r: Effect)
    ensures Empty(DeliveryTag(e)) ==> r == Effect(Failed(MissingMarker), [])
    ensures !Empty(DeliveryTag(e)) && DeliveryTag(e).Str? ==> r == Attempt(Nack(o.queue, DeliveryTag(e).s), refused)
    ensures forall c :: c in r.calls ==> c.Nack? && c.queue == o.queue
  {
    if Empty(DeliveryTag(e)) then Effect(Failed(MissingMarker), [])
    else TagCall(t => Nack(o.queue, t), DeliveryTag(e), refused)
  }

  /** `requeue` is ignored: rejecting with or without it is the same call. */
  lemma RejectIgnoresRequeue(o: Options, e: Envelope, refused: set<CallKind>)
    ensures RejectEffect(o, e, true, refused) == RejectEffect(o, e, false, refused)
    ensures !Empty(DeliveryTag(e)) && DeliveryTag(e).Str? && NackKind !in refused ==>
      RejectEffect(o, e, true, refused).calls == [Nack(o.queue, DeliveryTag(e).s)]
  {
  }

  /** `setup`: nothing unless `setupTopology` is truthy; then the events,
      the DLX flag (through the connection's `bool $withDLX` parameter) and
      the queue go to the connection's `setup`. */
  function SetupEffect(o: Options, events: seq<string>, refused: set<CallKind>): (r: Effect)
    ensures Empty(o.setupTopology) ==> r == Effect(Done, [])
    ensures !Empty(o.setupTopology) && BoolArgument(o.enableDlx).None? ==> r == Effect(Failed(TypeError), [])
    ensures !Empty(o.setupTopology) && BoolArgument(o.enableDlx).Some? ==>
      r == Attempt(SetupLegacy(events, !Empty(o.enableDlx), o.queue), refused)
  {
    if Empty(o.setupTopology) then Effect(Done, [])
    else
      match BoolArgument(o.enableDlx)
      case None => Effect(Failed(TypeError), [])
      case Some(withDlx) => Attempt(SetupLegacy(events, withDlx, o.queue), refused)
  }

  /** With the default options `setup` makes no call at all; a truthy
      non-boolean such as "yes" is enough to run it. */
  lemma SetupGate(events: seq<string>, refused: set<CallKind>)
    ensures SetupEffect(Defaults, events, refused) == Effect(Done, [])
    ensures SetupEffect(Defaults.(setupTopology := Str("yes")), events, {})
         == Effect(Done, [SetupLegacy(events, false, "")])
  {
  }

  /** The acknowledgement and rejection cases of the transport's tests: a
      transport on "my_queue_name" and an envelope marked "delivery_tag123"
      ack and nack exactly that pair, once. */
  lemma AckAndRejectVectors(e: Envelope, requeue: bool)
    requires e.markers == map[DeliveryTagMarker := Str("delivery_tag123")]
    ensures var o := Configure(NoOverrides.(queue := Some("my_queue_name")));
      && AckEffect(o, e, {}) == Effect(Done, [Ack("my_queue_name", "delivery_tag123")])
      && RejectEffect(o, e, requeue, {}) == Effect(Done, [Nack("my_queue_name", "delivery_tag123")])
  {
  }

  /** A structured broker message holding a written object is handed out by
      `get` with the metadata it was written from, when that metadata has
      nothing the object leaves out. */
  lemma GetWritten(p: Platform, m: BrokerEnvelope, md: Metadata, data: Value)
    requires m.contentType == CloudEventsJson && md.dataContentType == CloudEventsJson
    requires md.subject == "" && md.dataSchema == "" && md.extensions == []
    requires p.decode(m.body) == Some(WireObject(md, data))
    requires p.isRfc3339(md.time) && ListFree(data) && p.encode(data).Some?
    ensures Fetched(p, Some(m)).Ok? && Fetched(p, Some(m)).value.metadata == md
  {
    WireObjectFields(md, data);
    Encoding.StructuredEncoding.DecodedWireMetadata(md, data);
    assert md.(subject := "", dataSchema := "", extensions := []) == md;
    ForceObjectKeepsListFree(data);
    var body := Str(p.encode(data).value);
    assert Encoding.StructuredEncoding.DecodedBody(p, CloudEventsJson, data) == Ok(body);
    Encoding.StructuredEncoding.DecodeOf(p, m, WireObject(md, data), md, body);
  }

  /** The receiving case of the transport's tests: the BookCreated message
      is handed out with exactly the metadata it was written from. */
  lemma GetVector(p: Platform, m: BrokerEnvelope, md: Metadata)
    requires md == NewMetadata("1.0", "example.books.v1.BookCreated", "protoevent-php",
                               "859a8ad5-ad3f-475e-b2c2-38e568830631", "2023-03-22T12:44:07+00:00")
                     .(dataContentType := CloudEventsJson)
    requires m.contentType == CloudEventsJson
    requires p.decode(m.body) == Some(WireObject(md, Dict([Entry("id", Int(123))])))
    requires p.isRfc3339("2023-03-22T12:44:07+00:00")
    requires p.encode(Dict([Entry("id", Int(123))])).Some?
    ensures Fetched(p, Some(m)).Ok? && Fetched(p, Some(m)).value.metadata == md
  {
    var data := Dict([Entry("id", Int(123))]);
    assert ListFree(data);
    GetWritten(p, m, md, data);
  }

  class Transport {
    const connection: RecordingConnection
    const platform: Platform
    const options: Options

    constructor(connection: RecordingConnection, platform: Platform, overrides: Overrides)
      ensures this.connection == connection && this.platform == platform
      ensures options == Configure(overrides)
    {
      this.connection := connection;
      this.platform := platform;
      options := Configure(overrides);
    }

    method Publish(e: Envelope) returns (s: Status)
      modifies connection
      ensures connection.calls == old(connection.calls) + PublishEffect(platform, e, connection.refused).calls
      ensures s == PublishEffect(platform, e, connection.refused).status
      ensures connection.pending == old(connection.pending)
    {
      var route := Split(e.metadata.eventType);
      var encoded := Encoding.Encode(platform, e);
      if encoded.Err? {
        return Failed(encoded.error);
      }
      if !encoded.value.body.Str? {
        return Failed(TypeError);
      }
      var ok := connection.Perform(PublishBody(encoded.value.body.s, route.exchange, route.routingKey));
      s := if ok then Done else Failed(TransportFailed);
    }

    method Get() returns (r: Result<Envelope>)
      modifies connection
      ensures connection.calls == old(connection.calls) + (if GetKind in connection.refused then [] else [Call.Get(options.queue)])
      ensures GetKind in connection.refused ==> r == Err(TransportFailed) && connection.pending == old(connection.pending)
      ensures GetKind !in connection.refused ==>
        && r == Fetched(platform, Next(old(connection.pending), options.queue))
        && connection.pending == Rest(old(connection.pending), options.queue)
    {
      var ok, m := connection.Receive(options.queue);
      if !ok {
        return Err(TransportFailed);
      }
      if m.None? {
        return Err(TypeError);
      }
      r := Encoding.Decode(platform, m.value);
    }

    method Ack(e: Envelope) returns (s: Status)
      modifies connection
      ensures connection.calls == old(connection.calls) + AckEffect(options, e, connection.refused).calls
      ensures s == AckEffect(options, e, connection.refused).status
      ensures connection.pending == old(connection.pending)
    {
      var tag := DeliveryTag(e);
      if Empty(tag) {
        return Failed(MissingMarker);
      }
      var t := StringArgument(tag);
      if t.None? {
        return Failed(TypeError);
      }
      var ok := connection.Perform(Call.Ack(options.queue, t.value));
      s := if ok then Done else Failed(TransportFailed);
    }

    method Reject(e: Envelope, requeue: bool) returns (s: Status)
      modifies connection
      ensures connection.calls == old(connection.calls) + RejectEffect(options, e, requeue, connection.refused).calls
      ensures s == RejectEffect(options, e, requeue, connection.refused).status
      ensures connection.pending == old(connection.pending)
    {
      var tag := DeliveryTag(e);
      if Empty(tag) {
        return Failed(MissingMarker);
      }
      var t := StringArgument(tag);
      if t.None? {
        return Failed(TypeError);
      }
      var ok := connection.Perform(Nack(options.queue, t.value));
      s := if ok then Done else Failed(TransportFailed);
    }

    method Setup(events: seq<string>) returns (s: Status)
      modifies connection
      ensures connection.calls == old(connection.calls) + SetupEffect(options, events, connection.refused).calls
      ensures s == SetupEffect(options, events, connection.refused).status
      ensures connection.pending == old(connection.pending)
    {
      if Empty(options.setupTopology) {
        return Done;
      }
      var withDlx := BoolArgument(options.enableDlx);
      if withDlx.None? {
        return Failed(TypeError);
      }
      var ok := connection.Perform(SetupLegacy(events, withDlx.value, options.queue));
      s := if ok then Done else Failed(TransportFailed);
    }
  }
}
