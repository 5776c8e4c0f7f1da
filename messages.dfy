/** The two message shapes at the broker boundary: the outgoing AMQPMessage
    record the encoders build (src/AMQPMessage.php) and the incoming
    AMQPEnvelope the broker delivers. */
module Messages {
  import opened Outcomes
  import opened Php

  /** php-amqp flag values. */
  const NoParam: int := 0
  const Durable: int := 2

  /** Immutable outgoing message: body (any value), publish flags and the
      publish attributes (`content_type`, `headers`, …) as a PHP array.
      A datatype has no mutators, so a message never changes once built. */
  datatype AmqpMessage = AmqpMessage(body: Value, flags: int, attributes: seq<Entry>)

  /** `new AMQPMessage($body, $flags = AMQP_NOPARAM, $attributes = [])`; the
      getters are the datatype's destructors. */
  function NewMessage(body: Value, flags: int := NoParam, attributes: seq<Entry> := []): (m: AmqpMessage)
    ensures m.body == body && m.flags == flags && m.attributes == attributes
  {
    AmqpMessage(body, flags, attributes)
  }

  /** A message as the broker hands it out: body text, the `content_type` and
      `type` properties ("" when unset), the headers table and the delivery tag. */
  datatype BrokerEnvelope = BrokerEnvelope(
    body: string,
    contentType: string,
    eventType: string,
    headers: map<string, Value>,
    deliveryTag: string)

  /** `AMQPEnvelope::getHeader($name)`: false when the header is absent. */
  function Header(m: BrokerEnvelope, name: string): Value {
    if name in m.headers then m.headers[name] else Bool(false)
  }

  /** A string attribute of a published message, "" when it is unset. */
  function StringAttribute(attributes: seq<Entry>, name: string): string {
    var v := Lookup(attributes, name);
    if v.Some? && v.value.Str? then v.value.s else ""
  }

  /** What a consumer receives for a published message: the broker keeps the
      body and carries the `content_type`, `type` and `headers` attributes
      over as message properties. Exchanges publish text only. */
  function Delivered(msg: AmqpMessage, deliveryTag: string): (m: BrokerEnvelope)
    requires msg.body.Str?
    ensures m.body == msg.body.s && m.deliveryTag == deliveryTag
    ensures m.contentType == StringAttribute(msg.attributes, "content_type")
    ensures m.eventType == StringAttribute(msg.attributes, "type")
  {
    var h := Lookup(msg.attributes, "headers");
    BrokerEnvelope(
      msg.body.s,
      StringAttribute(msg.attributes, "content_type"),
      StringAttribute(msg.attributes, "type"),
      if h.Some? && h.value.Dict? then AsMap(h.value.entries) else map[],
      deliveryTag)
  }

  /** The constructor's defaults: no flags and no attributes. */
  lemma MessageDefaults(body: Value)
    ensures NewMessage(body) == AmqpMessage(body, NoParam, [])
  {
  }

  /** The message at the head of a queue. */
  function Next(pending: map<string, seq<BrokerEnvelope>>, queue: string): (m: Option<BrokerEnvelope>)
    ensures m.Some? <==> queue in pending && pending[queue] != []
  {
    if queue in pending && pending[queue] != [] then Some(pending[queue][0]) else None
  }

  /** The waiting messages once the head of a queue has been taken. */
  function Rest(pending: map<string, seq<BrokerEnvelope>>, queue: string): (r: map<string, seq<BrokerEnvelope>>)
    ensures Next(pending, queue).Some? ==> r == pending[queue := pending[queue][1..]]
    ensures Next(pending, queue).None? ==> r == pending
  {
    if queue in pending && pending[queue] != [] then pending[queue := pending[queue][1..]] else pending
  }
}
