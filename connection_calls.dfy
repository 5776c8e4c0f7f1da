/** The transports' view of their connection: an abstract object that
    records every call it accepts, fails the kinds of call the broker
    refuses (an AMQPException), and hands out the messages waiting on each
    queue. The real connections are modelled on their own in
    ParkingLotConnection and LegacyConnection. */
module ConnectionCalls {
  import opened Outcomes
  import opened Messages
  import opened ReceiverOptions

  /** A call a transport makes on its connection. */
  datatype Call =
    | Publish(message: AmqpMessage, exchange: string, routingKey: string)
    | PublishBody(body: string, exchange: string, routingKey: string)
    | Get(queue: string)
    | Ack(queue: string, deliveryTag: string)
    | Nack(queue: string, deliveryTag: string)
    | Setup(events: seq<string>, queue: string, options: Options)
    | SetupLegacy(events: seq<string>, withDlx: bool, queue: string)

  datatype CallKind = PublishKind | GetKind | AckKind | NackKind | SetupKind

  function Kind(c: Call): CallKind {
    match c
    case Publish(_, _, _) => PublishKind
    case PublishBody(_, _, _) => PublishKind
    case Get(_) => GetKind
    case Ack(_, _) => AckKind
    case Nack(_, _) => NackKind
    case Setup(_, _, _) => SetupKind
    case SetupLegacy(_, _, _) => SetupKind
  }

  /** What a sequence of calls reports and which of them reached the broker. */
  datatype Effect = Effect(status: Status, calls: seq<Call>)

  /** One call: it reaches the broker unless its kind is refused, in which
      case the transport rethrows the failure as a TransportException. */
  function Attempt(c: Call, refused: set<CallKind>): (r: Effect)
    ensures Kind(c) in refused ==> r == Effect(Failed(TransportFailed), [])
    ensures Kind(c) !in refused ==> r == Effect(Done, [c])
  {
    if Kind(c) in refused then Effect(Failed(TransportFailed), []) else Effect(Done, [c])
  }

  /** Two steps in one try block: the second runs only if the first succeeded. */
  function Then(first: Effect, second: Effect): (r: Effect)
    ensures first.status.Failed? ==> r == first
    ensures first.status.Done? ==> r == Effect(second.status, first.calls + second.calls)
  {
    if first.status.Failed? then first else Effect(second.status, first.calls + second.calls)
  }

  class RecordingConnection {
    var calls: seq<Call>
    var pending: map<string, seq<BrokerEnvelope>>
    const refused: set<CallKind>

    constructor(refused: set<CallKind>, pending: map<string, seq<BrokerEnvelope>>)
      ensures this.refused == refused && this.pending == pending && calls == []
    {
      this.refused := refused;
      this.pending := pending;
      calls := [];
    }

    /** A call that returns nothing to the transport. */
    method Perform(c: Call) returns (ok: bool)
      requires !c.Get?
      modifies this
      ensures ok == Attempt(c, refused).status.Done?
      ensures calls == old(calls) + Attempt(c, refused).calls
      ensures pending == old(pending)
    {
      ok := Kind(c) !in refused;
      if ok {
        calls := calls + [c];
      }
    }

    /** `get($queue)`: the next waiting message, or None when the queue is
      empty (the broker's `false`). */
    method Receive(queue: string) returns (ok: bool, m: Option<BrokerEnvelope>)
      modifies this
      ensures ok == (GetKind !in refused)
      ensures calls == old(calls) + (if ok then [Get(queue)] else [])
      ensures ok ==> m == Next(old(pending), queue) && pending == Rest(old(pending), queue)
      ensures !ok ==> pending == old(pending)
    {
      ok := GetKind !in refused;
      m := None;
      if ok {
        calls := calls + [Get(queue)];
        m := Next(pending, queue);
        pending := Rest(pending, queue);
      }
    }
  }
}
