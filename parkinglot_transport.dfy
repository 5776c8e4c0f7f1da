/** The reliable transport of the parking-lot revision
    (src/ParkingLot/AMQPTransport.php): publish by event type, receive with the
    broker headers and delivery tag attached, acknowledge, and reject either
    back into the retry loop or into the parking lot. */
module ParkingLotTransport {
  import opened Outcomes
  import opened Php
  import opened Json
  import opened Envelopes
  import opened Messages
  import opened EventTypes
  import opened ReceiverOptions
  import opened ConnectionCalls
  import Encoding
  import ParkingLotConnection

  /** `publish`: the envelope is encoded first (an encoding failure makes no
      call), then published once, to the exchange and routing key its type
      splits into. */
  function PublishEffect(p: Platform, e: Envelope, refused: set<CallKind>): (r: Effect)
    ensures Encoding.Encode(p, e).Err? ==> r == Effect(Failed(Encoding.Encode(p, e).error), [])
    ensures Encoding.Encode(p, e).Ok? ==>
      var route := Split(e.metadata.eventType);
      r == Attempt(Publish(Encoding.Encode(p, e).value, route.exchange, route.routingKey), refused)
  {
    match Encoding.Encode(p, e)
    case Err(error) => Effect(Failed(error), [])
    case Ok(message) =>
      var route := Split(e.metadata.eventType);
      Attempt(Publish(message, route.exchange, route.routingKey), refused)
  }

  /** What a consumer gets for a broker message: the decoded envelope with the
      broker headers and the delivery tag marker set. */
  function Received(p: Platform, m: BrokerEnvelope): (r: Result<Envelope>)
    ensures r.Ok? <==> Encoding.Decode(p, m).Ok?
    ensures r.Err? ==> r.error == Encoding.Decode(p, m).error
    ensures r.Ok? ==>
      && r.value.metadata == Encoding.Decode(p, m).value.metadata
      && r.value.body == Encoding.Decode(p, m).value.body
      && r.value.headers == m.headers
      && DeliveryTag(r.value) == Str(m.deliveryTag)
  {
    match Encoding.Decode(p, m)
    case Err(error) => Err(error)
    case Ok(e) => Ok(e.(headers := m.headers, markers := e.markers[DeliveryTagMarker := Str(m.deliveryTag)]))
  }

  /** `get`: nothing when the queue is empty, otherwise the one received
      envelope (a decoding failure propagates). */
  function Fetched(p: Platform, m: Option<BrokerEnvelope>): (r: Result<Option<Envelope>>)
    ensures m.None? ==> r == Ok(None)
    ensures m.Some? ==> (r.Ok? <==> Received(p, m.value).Ok?)
    ensures m.Some? && r.Ok? ==> r.value == Some(Received(p, m.value).value)
  {
    match m
    case None => Ok(None)
    case Some(message) =>
      match Received(p, message)
      case Err(error) => Err(error)
      case Ok(e) => Ok(Some(e))
  }

  /** Passing the marker to the connection's `string $deliveryTag` parameter:
      a scalar is converted, an array is a TypeError before any call. */
  function AckCall(queue: string, tag: Value, refused: set<CallKind>): (r: Effect)
    ensures StringArgument(tag).None? ==> r == Effect(Failed(TypeError), [])
    ensures StringArgument(tag).Some? ==> r == Attempt(Ack(queue, StringArgument(tag).value), refused)
  {
    match StringArgument(tag)
    case None => Effect(Failed(TypeError), [])
    case Some(t) => Attempt(Ack(queue, t), refused)
  }

  function NackCall(queue: string, tag: Value, refused: set<CallKind>): (r: Effect)
    ensures StringArgument(tag).None? ==> r == Effect(Failed(TypeError), [])
    ensures StringArgument(tag).Some? ==> r == Attempt(Nack(queue, StringArgument(tag).value), refused)
  {
    match StringArgument(tag)
    case None => Effect(Failed(TypeError), [])
    case Some(t) => Attempt(Nack(queue, t), refused)
  }

  /** `ack`: a PHP-empty delivery tag marker is a logic error and makes no
      call; otherwise one ack of that tag on the configured queue. */
  function AckEffect(o: Options, e: Envelope, refused: set<CallKind>): (r: Effect)
    ensures Empty(DeliveryTag(e)) ==> r == Effect(Failed(MissingMarker), [])
    ensures !Empty(DeliveryTag(e)) && DeliveryTag(e).Str? ==>
      r == Attempt(Ack(o.queue, DeliveryTag(e).s), refused)
    ensures forall c :: c in r.calls ==> c.Ack? && c.queue == o.queue
  {
    if Empty(DeliveryTag(e)) then Effect(Failed(MissingMarker), [])
    else AckCall(o.queue, DeliveryTag(e), refused)
  }

  /** `$headers[$name]` on the broker headers: null when absent. */
  function HeaderValue(headers: map<string, Value>, name: string): Value {
    if name in headers then headers[name] else Null
  }

  /** `$headers['x-death'] ?? []`. */
  function Deaths(headers: map<string, Value>): (d: Value)
    ensures "x-death" !in headers ==> d == List([])
  {
    var d := HeaderValue(headers, "x-death");
    if d == Null then List([]) else d
  }

  /** Position of the first death record whose `queue` is identical (`===`)
      to the first-death queue, or `|deaths|` when there is none. */
  function FirstMatch(deaths: seq<Value>, firstQueue: Value): (i: nat)
    ensures i <= |deaths|
    ensures i < |deaths| ==> Index(deaths[i], "queue") == firstQueue
    ensures forall j :: 0 <= j < i ==> Index(deaths[j], "queue") != firstQueue
    decreases |deaths|
  {
    if deaths == [] then 0
    else if Index(deaths[0], "queue") == firstQueue then 0
    else 1 + FirstMatch(deaths[1..], firstQueue)
  }

  /** PHP's loose `$count >= $maxRetries` with an integer on the right. An
      integer compares numerically; null and booleans compare as booleans
      (`false >= true` is false); an array is greater than any integer. A
      string count is outside the model and reads as not exceeded. */
  function CountAtLeast(count: Value, maxRetries: int): (r: bool)
    ensures count.Int? ==> (r <==> count.i >= maxRetries)
    ensures count.Null? ==> (r <==> maxRetries == 0)
    ensures IsArray(count) ==> r
  {
    match count
    case Int(i) => i >= maxRetries
    case Null => maxRetries == 0
    case Bool(b) => b || maxRetries == 0
    case Str(_) => false
    case List(_) => true
    case Dict(_) => true
  }

  /** `hasExceededRetryCount`: the count of the first death record for the
      first-death queue reaches `maxRetries`. No `x-death` header, one that is
      not an array, or no matching record means it has not. */
  function RetriesExceeded(headers: map<string, Value>, maxRetries: int): (r: bool)
    ensures "x-death" !in headers ==> !r
    ensures !IsArray(Deaths(headers)) ==> !r
    ensures IsArray(Deaths(headers)) ==>
      var deaths := Elements(Deaths(headers));
      var first := HeaderValue(headers, "x-first-death-queue");
      (r <==> exists i :: 0 <= i < |deaths| && Index(deaths[i], "queue") == first
                          && (forall j :: 0 <= j < i ==> Index(deaths[j], "queue") != first)
                          && CountAtLeast(Index(deaths[i], "count"), maxRetries))
  {
    var deaths := Deaths(headers);
    if !IsArray(deaths) then false
    else
      var es := Elements(deaths);
      var i := FirstMatch(es, HeaderValue(headers, "x-first-death-queue"));
      i < |es| && CountAtLeast(Index(es[i], "count"), maxRetries)
  }

  /** `putIntoParkingLot`: re-encode the envelope, publish it to the
      dead-letter exchange with the parking-lot routing key, then acknowledge
      the original delivery; both calls share one try block, so a failed
      publish is not followed by the ack. */
  function ParkEffect(o: Options, p: Platform, e: Envelope, refused: set<CallKind>): (r: Effect)
    ensures Encoding.Encode(p, e).Err? ==> r == Effect(Failed(Encoding.Encode(p, e).error), [])
    ensures Encoding.Encode(p, e).Ok? ==>
      r == Then(Attempt(Publish(Encoding.Encode(p, e).value, o.queue + ParkingLotConnection.DlxSuffix,
                                ParkingLotConnection.ParkingLotRoutingKey), refused),
                AckCall(o.queue, DeliveryTag(e), refused))
  {
    match Encoding.Encode(p, e)
    case Err(error) => Effect(Failed(error), [])
    case Ok(message) =>
      Then(Attempt(Publish(message, o.queue + ParkingLotConnection.DlxSuffix, ParkingLotConnection.ParkingLotRoutingKey), refused),
           AckCall(o.queue, DeliveryTag(e), refused))
  }

  datatype Decision = Refuse | Park | Requeue

  /** The three-way decision of `reject`. */
  function RejectDecision(o: Options, e: Envelope, requeue: bool): (d: Decision)
    ensures d == Refuse <==> Empty(DeliveryTag(e))
    ensures !Empty(DeliveryTag(e)) && !requeue ==> d == Park
    ensures !Empty(DeliveryTag(e)) && requeue ==> (d == Park <==> RetriesExceeded(e.headers, o.maxRetries))
    ensures d == Requeue <==> !Empty(DeliveryTag(e)) && requeue && !RetriesExceeded(e.headers, o.maxRetries)
  {
    if Empty(DeliveryTag(e)) then Refuse
    else if !requeue then Park
    else if RetriesExceeded(e.headers, o.maxRetries) then Park
    else Requeue
  }

  /** `reject`: a missing marker makes no call; parking publishes and acks;
      requeueing is one nack on the configured queue and publishes nothing. */
  function RejectEffect(o: Options, p: Platform, e: Envelope, requeue: bool, refused: set<CallKind>): (r: Effect)
    ensures RejectDecision(o, e, requeue) == Refuse ==> r == Effect(Failed(MissingMarker), [])
    ensures RejectDecision(o, e, requeue) == Park ==> r == ParkEffect(o, p, e, refused)
    ensures RejectDecision(o, e, requeue) == Requeue ==> r == NackCall(o.queue, DeliveryTag(e), refused)
  {
    match RejectDecision(o, e, requeue)
    case Refuse => Effect(Failed(MissingMarker), [])
    case Park => ParkEffect(o, p, e, refused)
    case Requeue => NackCall(o.queue, DeliveryTag(e), refused)
  }

  /** Without requeue a rejected envelope is always parked, whatever its
      retry history: first the publish to `<queue>.dlx` with the parking-lot
      routing key, then the ack of the original delivery, in that order. */
  lemma RejectWithoutRequeueParks(o: Options, p: Platform, e: Envelope)
    requires !Empty(DeliveryTag(e)) && DeliveryTag(e).Str?
    requires Encoding.Encode(p, e).Ok?
    ensures RejectEffect(o, p, e, false, {})
         == Effect(Done, [Publish(Encoding.Encode(p, e).value, o.queue + ".dlx", "parkinglot"),
                          Ack(o.queue, DeliveryTag(e).s)])
  {
  }

  /** A publish that fails in the park path is never followed by the ack, and
      the failure is reported as a transport failure. */
  lemma ParkWithoutPublishDoesNotAck(o: Options, p: Platform, e: Envelope, refused: set<CallKind>)
    requires PublishKind in refused
    ensures ParkEffect(o, p, e, refused).calls == []
    ensures Encoding.Encode(p, e).Ok? ==> ParkEffect(o, p, e, refused).status == Failed(TransportFailed)
  {
  }

  /** Requeueing a delivery that has retries left is exactly one nack of its
      tag on the configured queue: nothing is published or acknowledged. */
  lemma RequeueWithinLimitNacks(o: Options, p: Platform, e: Envelope, refused: set<CallKind>)
    requires !Empty(DeliveryTag(e)) && DeliveryTag(e).Str?
    requires !RetriesExceeded(e.headers, o.maxRetries)
    ensures RejectEffect(o, p, e, true, refused) == Attempt(Nack(o.queue, DeliveryTag(e).s), refused)
    ensures forall c :: c in RejectEffect(o, p, e, true, refused).calls ==> c.Nack?
  {
  }

  /** An envelope the transport did not receive (no delivery tag marker, or
      an empty one) is refused by `ack` and `reject` before any call. */
  lemma MissingMarkerMakesNoCall(o: Options, p: Platform, e: Envelope, requeue: bool, refused: set<CallKind>)
    requires Empty(DeliveryTag(e))
    ensures AckEffect(o, e, refused) == Effect(Failed(MissingMarker), [])
    ensures RejectEffect(o, p, e, requeue, refused) == Effect(Failed(MissingMarker), [])
  {
  }

  /** The headers RabbitMQ sets after deaths in one queue only. */
  function DeathHeaders(records: seq<Value>, firstQueue: string): map<string, Value> {
    map["x-death" := List(records), "x-first-death-queue" := Str(firstQueue)]
  }

  function DeathRecord(queue: string, count: int): Value {
    Dict([Entry("queue", Str(queue)), Entry("count", Int(count))])
  }

  /** With one death record for the first-death queue, the retry limit is
      reached exactly when its count reaches `maxRetries`. */
  lemma SingleDeathRecord(queue: string, count: int, maxRetries: int)
    ensures RetriesExceeded(DeathHeaders([DeathRecord(queue, count)], queue), maxRetries) <==> count >= maxRetries
  {
    var r := DeathRecord(queue, count);
    LookupFirst(r.entries, 0, "queue");
    LookupFirst(r.entries, 1, "count");
    assert Elements(List([r])) == [r];
  }

  /** Only the first record for the first-death queue is read: a later record
      for the same queue does not count, nor does a record for another queue. */
  lemma FirstRecordDecides(queue: string, other: string, maxRetries: int)
    requires queue != other && maxRetries == DefaultMaxRetries
    ensures !RetriesExceeded(DeathHeaders([DeathRecord(other, 9), DeathRecord(queue, 1), DeathRecord(queue, 5)], queue), maxRetries)
  {
    var a, b, c := DeathRecord(other, 9), DeathRecord(queue, 1), DeathRecord(queue, 5);
    LookupFirst(a.entries, 0, "queue");
    LookupFirst(b.entries, 0, "queue");
    LookupFirst(b.entries, 1, "count");
    var es := Elements(List([a, b, c]));
    assert es == [a, b, c];
    assert FirstMatch(es, Str(queue)) == 1;
  }

  /** With the default limit of three, the second retry is requeued and the
      third goes to the parking lot. */
  lemma DefaultRetryLimit(p: Platform, e: Envelope, queue: string)
    requires !Empty(DeliveryTag(e)) && DeliveryTag(e).Str?
    ensures RejectDecision(Defaults, e.(headers := DeathHeaders([DeathRecord(queue, 2)], queue)), true) == Requeue
    ensures RejectDecision(Defaults, e.(headers := DeathHeaders([DeathRecord(queue, 3)], queue)), true) == Park
  {
    SingleDeathRecord(queue, 2, DefaultMaxRetries);
    SingleDeathRecord(queue, 3, DefaultMaxRetries);
  }

  /** A structured envelope published by the transport is received back as
      it was sent: same metadata and body, the broker's (here empty) headers,
      and its delivery tag as the only marker. */
  lemma PublishedThenReceived(p: Platform, e: Envelope, tag: string)
    requires Lawful(p)
    requires Encoding.IsStructured(e.metadata.dataContentType)
    requires Encoding.Encode(p, e).Ok? && Encoding.StructuredEncoding.Carried(p, e)
    ensures Encoding.Encode(p, e).value.body.Str?
    ensures Received(p, Delivered(Encoding.Encode(p, e).value, tag))
         == Ok(e.(headers := map[], markers := map[DeliveryTagMarker := Str(tag)]))
  {
    var msg := Encoding.Encode(p, e).value;
    var m := Delivered(msg, tag);
    var d := e.(headers := map[], markers := map[DeliveryTagMarker := Str(tag)]);
    assert Encoding.Decode(p, m) == Ok(d) by { Encoding.RoundTrip(p, e, tag); }
    assert m.headers == map[] by { LookupAbsent(msg.attributes, "headers"); }
    ReceivedOfDecoded(p, m, d);
    assert d.markers[DeliveryTagMarker := Str(tag)] == d.markers;
  }

  /** Receiving a message that decodes to `d` gives `d` with the broker
      headers and the delivery tag marker set. */
  lemma ReceivedOfDecoded(p: Platform, m: BrokerEnvelope, d: Envelope)
    requires Encoding.Decode(p, m) == Ok(d)
    ensures Received(p, m) == Ok(d.(headers := m.headers, markers := d.markers[DeliveryTagMarker := Str(m.deliveryTag)]))
  {
  }

  class Transport {
    const connection: RecordingConnection
    const platform: Platform
    const options: Options

    /** The receiver options are the defaults replaced by the caller's. */
    constructor(connection: RecordingConnection, platform: Platform, overrides: Overrides)
      ensures this.connection == connection && this.platform == platform
      ensures options == Configure(overrides)
    {
      this.connection := connection;
      this.platform := platform;
      options := Configure(overrides);
    }

    method Publish(e: Envelope) returns (s: Status)
      modifies connection
      ensures connection.calls == old(connection.calls) + PublishEffect(platform, e, connection.refused).calls
      ensures s == PublishEffect(platform, e, connection.refused).status
      ensures connection.pending == old(connection.pending)
    {
      var route := Split(e.metadata.eventType);
      var encoded := Encoding.Encode(platform, e);
      if encoded.Err? {
        return Failed(encoded.error);
      }
      var ok := connection.Perform(Call.Publish(encoded.value, route.exchange, route.routingKey));
      s := if ok then Done else Failed(TransportFailed);
    }

    method Get() returns (r: Result<Option<Envelope>>)
      modifies connection
      ensures connection.calls == old(connection.calls) + (if GetKind in connection.refused then [] else [Call.Get(options.queue)])
      ensures GetKind in connection.refused ==> r == Err(TransportFailed) && connection.pending == old(connection.pending)
      ensures GetKind !in connection.refused ==>
        && r == Fetched(platform, Next(old(connection.pending), options.queue))
        && connection.pending == Rest(old(connection.pending), options.queue)
    {
      var ok, m := connection.Receive(options.queue);
      if !ok {
        return Err(TransportFailed);
      }
      if m.None? {
        return Ok(None);
      }
      var decoded := Encoding.Decode(platform, m.value);
      if decoded.Err? {
        return Err(decoded.error);
      }
      var e := decoded.value.(headers := m.value.headers);
      e := e.(markers := e.markers[DeliveryTagMarker := Str(m.value.deliveryTag)]);
      r := Ok(Some(e));
    }

    method Ack(e: Envelope) returns (s: Status)
      modifies connection
      ensures connection.calls == old(connection.calls) + AckEffect(options, e, connection.refused).calls
      ensures s == AckEffect(options, e, connection.refused).status
      ensures connection.pending == old(connection.pending)
    {
      var tag := DeliveryTag(e);
      if Empty(tag) {
        return Failed(MissingMarker);
      }
      var t := StringArgument(tag);
      if t.None? {
        return Failed(TypeError);
      }
      var ok := connection.Perform(Call.Ack(options.queue, t.value));
      s := if ok then Done else Failed(TransportFailed);
    }

    /** The `foreach` search over the death records, returning at the first
      record for the first-death queue. */
    method HasExceededRetryCount(e: Envelope) returns (exceeded: bool)
      ensures exceeded == RetriesExceeded(e.headers, options.maxRetries)
    {
      var deaths := Deaths(e.headers);
      if IsArray(deaths) {
        var es := Elements(deaths);
        var first := HeaderValue(e.headers, "x-first-death-queue");
        var i := 0;
        while i < |es|
          invariant 0 <= i <= |es|
          invariant forall j :: 0 <= j < i ==> Index(es[j], "queue") != first
        {
          if Index(es[i], "queue") == first {
            assert FirstMatch(es, first) == i;
            return CountAtLeast(Index(es[i], "count"), options.maxRetries);
          }
          i := i + 1;
        }
        assert FirstMatch(es, first) == |es|;
      }
      return false;
    }

    method Reject(e: Envelope, requeue: bool) returns (s: Status)
      modifies connection
      ensures connection.calls == old(connection.calls) + RejectEffect(options, platform, e, requeue, connection.refused).calls
      ensures s == RejectEffect(options, platform, e, requeue, connection.refused).status
      ensures connection.pending == old(connection.pending)
    {
      var tag := DeliveryTag(e);
      if Empty(tag) {
        return Failed(MissingMarker);
      }
      if !requeue {
        s := PutIntoParkingLot(e);
        return;
      }
      var exceeded := HasExceededRetryCount(e);
      if exceeded {
        s := PutIntoParkingLot(e);
        return;
      }
      var t := StringArgument(tag);
      if t.None? {
        return Failed(TypeError);
      }
      var ok := connection.Perform(Call.Nack(options.queue, t.value));
      s := if ok then Done else Failed(TransportFailed);
    }

    method PutIntoParkingLot(e: Envelope) returns (s: Status)
      modifies connection
      ensures connection.calls == old(connection.calls) + ParkEffect(options, platform, e, connection.refused).calls
      ensures s == ParkEffect(options, platform, e, connection.refused).status
      ensures connection.pending == old(connection.pending)
    {
      var tag := DeliveryTag(e);
      var dlxExchange := options.queue + ParkingLotConnection.DlxSuffix;
      var encoded := Encoding.Encode(platform, e);
      if encoded.Err? {
        return Failed(encoded.error);
      }
      var ok := connection.Perform(Call.Publish(encoded.value, dlxExchange, ParkingLotConnection.ParkingLotRoutingKey));
      if !ok {
        return Failed(TransportFailed);
      }
      var t := StringArgument(tag);
      if t.None? {
        return Failed(TypeError);
      }
      ok := connection.Perform(Call.Ack(options.queue, t.value));
      s := if ok then Done else Failed(TransportFailed);
    }

    /** `setup`: hands the events, the queue and all options to the connection. */
    method Setup(events: seq<string>) returns (s: Status)
      modifies connection
      ensures connection.calls == old(connection.calls) + Attempt(Call.Setup(events, options.queue, options), connection.refused).calls
      ensures s == Attempt(Call.Setup(events, options.queue, options), connection.refused).status
      ensures connection.pending == old(connection.pending)
    {
      var ok := connection.Perform(Call.Setup(events, options.queue, options));
      s := if ok then Done else Failed(TransportFailed);
    }
  }
}
