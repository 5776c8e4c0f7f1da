/** What the topology managers do at the broker, as a log of operations on
    exchange and queue handles (php-amqp's \AMQPExchange and \AMQPQueue
    objects). Each handle keeps the name, type, flags and arguments set when
    it was created and the channel it was created on. */
module Broker {
  import opened Php
  import opened EventTypes

  /** php-amqp exchange types. */
  const Fanout: string := "fanout"
  const Topic: string := "topic"

  datatype ExchangeHandle = ExchangeHandle(name: string, kind: string, flags: int, channel: nat)

  datatype QueueHandle = QueueHandle(name: string, flags: int, arguments: seq<Entry>, channel: nat)

  datatype Op =
    | Connected
    | ChannelOpened(channel: nat)
    | QosApplied(channel: nat, size: int, count: int)
    | ExchangeDeclared(exchange: ExchangeHandle)
    | QueueDeclared(queue: QueueHandle)
    | Bound(queue: QueueHandle, exchangeName: string, routingKey: string)
    | Published(exchange: ExchangeHandle, body: Value, routingKey: string, flags: int, attributes: seq<Entry>)
    | Fetched(queue: QueueHandle)
    | Acked(queue: QueueHandle, deliveryTag: string)
    | Nacked(queue: QueueHandle, deliveryTag: string, flags: int)

  /** Names of the queues bound to `exchange` with `key`, in binding order. */
  function BoundQueues(log: seq<Op>, exchange: string, key: string): seq<string>
    decreases |log|
  {
    if log == [] then []
    else
      var op := log[|log| - 1];
      BoundQueues(log[..|log| - 1], exchange, key)
      + (if op.Bound? && op.exchangeName == exchange && op.routingKey == key then [op.queue.name] else [])
  }

  /** The bindings of a log that is extended are those of its parts, in order. */
  lemma {:induction false} BoundQueuesAppend(a: seq<Op>, b: seq<Op>, exchange: string, key: string)
    ensures BoundQueues(a + b, exchange, key) == BoundQueues(a, exchange, key) + BoundQueues(b, exchange, key)
    decreases |b|
  {
    if b == [] {
      assert a + b == a;
    } else {
      assert (a + b)[..|a + b| - 1] == a + b[..|b| - 1];
      assert (a + b)[|a + b| - 1] == b[|b| - 1];
      BoundQueuesAppend(a, b[..|b| - 1], exchange, key);
    }
  }

  /** One more operation adds its own binding, if it is one, at the end. */
  lemma BoundQueuesSnoc(log: seq<Op>, op: Op, exchange: string, key: string)
    ensures BoundQueues(log + [op], exchange, key)
      == BoundQueues(log, exchange, key) + (if op.Bound? && op.exchangeName == exchange && op.routingKey == key then [op.queue.name] else [])
  {
    assert (log + [op])[..|log|] == log;
  }

  /** A log without bindings on `exchange` binds nothing to it. */
  lemma {:induction false} NoBoundQueues(log: seq<Op>, exchange: string, key: string)
    requires forall i :: 0 <= i < |log| ==> !(log[i].Bound? && log[i].exchangeName == exchange)
    ensures BoundQueues(log, exchange, key) == []
    decreases |log|
  {
    if log != [] {
      NoBoundQueues(log[..|log| - 1], exchange, key);
    }
  }

  /** The bindings of handle `h` the `setup` methods make for `events`: one
      per event, to the event's exchange with its routing key, in order. */
  function BindingOps(h: QueueHandle, events: seq<string>): (ops: seq<Op>)
    ensures |ops| == |events|
    ensures forall i :: 0 <= i < |events| ==>
      ops[i] == Bound(h, BindingRoute(events[i]).exchange, BindingRoute(events[i]).routingKey)
  {
    seq(|events|, i requires 0 <= i < |events| => Bound(h, BindingRoute(events[i]).exchange, BindingRoute(events[i]).routingKey))
  }

  /** One more event adds its binding at the end. */
  lemma BindingOpsSnoc(h: QueueHandle, events: seq<string>)
    requires events != []
    ensures var last := BindingRoute(events[|events| - 1]);
      BindingOps(h, events) == BindingOps(h, events[..|events| - 1]) + [Bound(h, last.exchange, last.routingKey)]
  {
    var init := events[..|events| - 1];
    var last := BindingRoute(events[|events| - 1]);
    var l := BindingOps(h, init) + [Bound(h, last.exchange, last.routingKey)];
    forall i | 0 <= i < |events| ensures BindingOps(h, events)[i] == l[i] {
      if i < |init| {
        assert events[i] == init[i];
      }
    }
  }

  /** Where a queue dead-letters to: its `x-dead-letter-exchange` and
      `x-dead-letter-routing-key` arguments, when both are strings. */
  function DeadLetterTarget(q: QueueHandle): (string, string) {
    var ex := Lookup(q.arguments, "x-dead-letter-exchange");
    var key := Lookup(q.arguments, "x-dead-letter-routing-key");
    (if ex.Some? && ex.value.Str? then ex.value.s else "",
     if key.Some? && key.value.Str? then key.value.s else "")
  }
}
