/** The topology manager of the parking-lot revision
    (src/ParkingLot/AMQPConnection.php): a lazily opened connection and
    channel, name-keyed caches of exchange and queue handles, a stored QoS
    setting, and the declarations that build the retry loop around a queue. */
module ParkingLotConnection {
  import opened Outcomes
  import opened Php
  import opened Messages
  import opened EventTypes
  import opened ReceiverOptions
  import opened Broker

  /** Names derived from the main queue, and the routing keys of the retry loop. */
  const DlxSuffix: string := ".dlx"
  const WaitSuffix: string := ".wait"
  const ParkingLotSuffix: string := ".pl"
  const RetryRoutingKey: string := "retry"
  const WaitRoutingKey: string := "wait"
  const ParkingLotRoutingKey: string := "parkinglot"

  datatype Qos = Qos(size: int, count: int)

  /** The manager's fields, and the broker log its calls produce. */
  datatype State = State(
    connected: bool,
    channel: Option<nat>,
    channelsOpened: nat,
    exchanges: map<string, ExchangeHandle>,
    queues: map<string, QueueHandle>,
    qualityOfService: Option<Qos>,
    pending: map<string, seq<BrokerEnvelope>>,
    log: seq<Op>)

  /** A live connection always has its channel, and each cached handle is
      filed under its own name. */
  predicate Coherent(s: State) {
    && (s.connected ==> s.channel.Some?)
    && (forall k :: k in s.exchanges ==> s.exchanges[k].name == k)
    && (forall k :: k in s.queues ==> s.queues[k].name == k)
  }

  /** The broker operations of a fresh connect: the connection, a new channel,
      and QoS on it when a setting is stored. */
  function ConnectOps(channel: nat, qos: Option<Qos>): (ops: seq<Op>)
    ensures |ops| >= 2 && ops[0] == Connected && ops[1] == ChannelOpened(channel)
    ensures qos.None? ==> |ops| == 2
    ensures qos.Some? ==> ops[2..] == [QosApplied(channel, qos.value.size, qos.value.count)]
  {
    [Connected, ChannelOpened(channel)]
    + (if qos.Some? then [QosApplied(channel, qos.value.size, qos.value.count)] else [])
  }

  /** `connect`: a connected connection is reused as it is; otherwise a new
      connection and channel are opened. */
  function ConnectSpec(s: State): (r: State)
    requires Coherent(s)
    ensures Coherent(r) && r.connected
    ensures s.connected ==> r == s
    ensures !s.connected ==> r.channel == Some(s.channelsOpened) && r.log == s.log + ConnectOps(s.channelsOpened, s.qualityOfService)
    ensures (r.exchanges, r.queues, r.qualityOfService, r.pending) == (s.exchanges, s.queues, s.qualityOfService, s.pending)
  {
    if s.connected then s
    else
      s.(connected := true, channel := Some(s.channelsOpened), channelsOpened := s.channelsOpened + 1,
         log := s.log + ConnectOps(s.channelsOpened, s.qualityOfService))
  }

  /** `exchange($name, $type, $flags)` after connecting: the cached handle
      when there is one, whatever type and flags are asked for now; otherwise
      a new handle on the current channel, which is cached. */
  function ExchangeStep(s: State, name: string, kind: string, flags: int): (r: (State, ExchangeHandle))
    requires Coherent(s)
    ensures Coherent(r.0) && r.0.connected && r.0.log == ConnectSpec(s).log
    ensures name in r.0.exchanges && r.0.exchanges[name] == r.1 && r.1.name == name
    ensures name in s.exchanges ==> r == (ConnectSpec(s), s.exchanges[name])
    ensures name !in s.exchanges ==> r.1 == ExchangeHandle(name, kind, flags, ConnectSpec(s).channel.value)
  {
    var c := ConnectSpec(s);
    if name in c.exchanges then (c, c.exchanges[name])
    else
      var h := ExchangeHandle(name, kind, flags, c.channel.value);
      (c.(exchanges := c.exchanges[name := h]), h)
  }

  /** `queue($name, $arguments, $flags)` after connecting, cached the same way. */
  function QueueStep(s: State, name: string, arguments: seq<Entry>, flags: int): (r: (State, QueueHandle))
    requires Coherent(s)
    ensures Coherent(r.0) && r.0.connected && r.0.log == ConnectSpec(s).log
    ensures name in r.0.queues && r.0.queues[name] == r.1 && r.1.name == name
    ensures name in s.queues ==> r == (ConnectSpec(s), s.queues[name])
    ensures name !in s.queues ==> r.1 == QueueHandle(name, flags, arguments, ConnectSpec(s).channel.value)
  {
    var c := ConnectSpec(s);
    if name in c.queues then (c, c.queues[name])
    else
      var h := QueueHandle(name, flags, arguments, c.channel.value);
      (c.(queues := c.queues[name := h]), h)
  }

  function DeclareExchangeStep(s: State, name: string, kind: string): (r: State)
    requires Coherent(s)
    ensures Coherent(r) && r.connected
  {
    var (c, h) := ExchangeStep(s, name, kind, Durable);
    c.(log := c.log + [ExchangeDeclared(h)])
  }

  function DeclareQueueStep(s: State, name: string, arguments: seq<Entry>): (r: State)
    requires Coherent(s)
    ensures Coherent(r) && r.connected
  {
    var (c, h) := QueueStep(s, name, arguments, Durable);
    c.(log := c.log + [QueueDeclared(h)])
  }

  /** `queue($name)->bind($exchange, $key)`: binds the cached handle. */
  function BindStep(s: State, name: string, exchange: string, key: string): (r: State)
    requires Coherent(s)
    ensures Coherent(r) && r.connected
  {
    var (c, h) := QueueStep(s, name, [], Durable);
    c.(log := c.log + [Bound(h, exchange, key)])
  }

  /** The wait queue dead-letters back through the DLX with the retry key
      once the back-off has elapsed. */
  function WaitArguments(dlx: string, ttl: int): seq<Entry> {
    [Entry("x-dead-letter-exchange", Str(dlx)),
     Entry("x-dead-letter-routing-key", Str(RetryRoutingKey)),
     Entry("x-message-ttl", Int(ttl))]
  }

  /** The main queue dead-letters through the DLX with the wait key. */
  function MainArguments(dlx: string): seq<Entry> {
    [Entry("x-dead-letter-exchange", Str(dlx)),
     Entry("x-dead-letter-routing-key", Str(WaitRoutingKey))]
  }

  /** The four declarations of `setupTopology`: the DLX as a topic
      exchange, the wait queue, the parking-lot queue and the main queue. */
  function TopologyDeclarations(s: State, queue: string, ttl: int): (r: State)
    requires Coherent(s)
    ensures Coherent(r) && r.connected
  {
    var dlx := queue + DlxSuffix;
    var s1 := DeclareExchangeStep(s, dlx, Topic);
    var s2 := DeclareQueueStep(s1, queue + WaitSuffix, WaitArguments(dlx, ttl));
    var s3 := DeclareQueueStep(s2, queue + ParkingLotSuffix, []);
    DeclareQueueStep(s3, queue, MainArguments(dlx))
  }

  /** `setupTopology($queueName, $minRetryBackoff)`: the declarations, then
      the three bindings to the DLX. */
  function TopologySpec(s: State, queue: string, ttl: int): (r: State)
    requires Coherent(s)
    ensures Coherent(r) && r.connected
  {
    var dlx := queue + DlxSuffix;
    var s4 := TopologyDeclarations(s, queue, ttl);
    var s5 := BindStep(s4, queue + WaitSuffix, dlx, WaitRoutingKey);
    var s6 := BindStep(s5, queue, dlx, RetryRoutingKey);
    BindStep(s6, queue + ParkingLotSuffix, dlx, ParkingLotRoutingKey)
  }

  /** `setupBindings`: one binding of the queue per registered event, in
      order; no event, no connection. */
  function BindingsSpec(s: State, events: seq<string>, queue: string): (r: State)
    requires Coherent(s)
    ensures Coherent(r)
    ensures events == [] ==> r == s
    decreases |events|
  {
    if events == [] then s
    else
      var last := BindingRoute(events[|events| - 1]);
      BindStep(BindingsSpec(s, events[..|events| - 1], queue), queue, last.exchange, last.routingKey)
  }

  /** `setup`: the topology step when `setupTopology` is identical to true,
      then the bindings step when `setupBindings` is. */
  function SetupSpec(s: State, events: seq<string>, queue: string, o: Options): (r: State)
    requires Coherent(s)
    ensures Coherent(r)
  {
    var s1 := if o.setupTopology == Bool(true) then TopologySpec(s, queue, o.minRetryBackoff) else s;
    if o.setupBindings == Bool(true) then BindingsSpec(s1, events, queue) else s1
  }

  /** Whether `setup` opens the connection at all. */
  predicate SetupConnects(events: seq<string>, o: Options) {
    o.setupTopology == Bool(true) || (o.setupBindings == Bool(true) && events != [])
  }

  function PublishSpec(s: State, message: AmqpMessage, exchange: string, routingKey: string): (r: State)
    requires Coherent(s)
    ensures Coherent(r) && r.connected
  {
    var (c, h) := ExchangeStep(s, exchange, Fanout, Durable);
    c.(log := c.log + [Published(h, message.body, routingKey, message.flags, message.attributes)])
  }

  /** `get`: the next message, or None for the broker's `false`. */
  function GetSpec(s: State, queue: string): (r: (State, Option<BrokerEnvelope>))
    requires Coherent(s)
    ensures Coherent(r.0) && r.0.connected
    ensures r.1 == Next(s.pending, queue) && r.0.pending == Rest(s.pending, queue)
  {
    var (c, h) := QueueStep(s, queue, [], Durable);
    (c.(log := c.log + [Fetched(h)], pending := Rest(c.pending, queue)), Next(c.pending, queue))
  }

  function AckSpec(s: State, queue: string, tag: string): (r: State)
    requires Coherent(s)
    ensures Coherent(r) && r.connected
  {
    var (c, h) := QueueStep(s, queue, [], Durable);
    c.(log := c.log + [Acked(h, tag)])
  }

  function NackSpec(s: State, queue: string, tag: string, flags: int): (r: State)
    requires Coherent(s)
    ensures Coherent(r) && r.connected
  {
    var (c, h) := QueueStep(s, queue, [], Durable);
    c.(log := c.log + [Nacked(h, tag, flags)])
  }

  /** The seven operations `setupTopology` performs when none of its names is
      cached yet, all on the channel `c`. */
  function TopologyOps(queue: string, ttl: int, c: nat): seq<Op> {
    var dlx := queue + DlxSuffix;
    var wait := QueueHandle(queue + WaitSuffix, Durable, WaitArguments(dlx, ttl), c);
    var parkingLot := QueueHandle(queue + ParkingLotSuffix, Durable, [], c);
    var main := QueueHandle(queue, Durable, MainArguments(dlx), c);
    [ExchangeDeclared(ExchangeHandle(dlx, Topic, Durable, c)),
     QueueDeclared(wait), QueueDeclared(parkingLot), QueueDeclared(main),
     Bound(wait, dlx, WaitRoutingKey), Bound(main, dlx, RetryRoutingKey), Bound(parkingLot, dlx, ParkingLotRoutingKey)]
  }

  /** None of the names `setupTopology` uses for `queue` is cached. */
  predicate TopologyUncached(s: State, queue: string) {
    && queue + DlxSuffix !in s.exchanges
    && queue !in s.queues && queue + WaitSuffix !in s.queues && queue + ParkingLotSuffix !in s.queues
  }

  /** On uncached names, `setupTopology` connects if needed, declares the DLX
      as a durable topic exchange, declares the wait queue (dead-lettering to
      the DLX with the retry key after the back-off), the parking-lot queue
      and the main queue (dead-lettering with the wait key), and then binds
      the three queues to the DLX; the handles end up cached under their names. */
  lemma TopologyLog(s: State, queue: string, ttl: int)
    requires Coherent(s) && TopologyUncached(s, queue)
    ensures var c := ConnectSpec(s).channel.value;
      var r := TopologySpec(s, queue, ttl);
      && r.log == ConnectSpec(s).log + TopologyOps(queue, ttl, c)
      && r.exchanges == s.exchanges[queue + DlxSuffix := ExchangeHandle(queue + DlxSuffix, Topic, Durable, c)]
      && r.queues == s.queues[queue + WaitSuffix := QueueHandle(queue + WaitSuffix, Durable, WaitArguments(queue + DlxSuffix, ttl), c)]
                                [queue + ParkingLotSuffix := QueueHandle(queue + ParkingLotSuffix, Durable, [], c)]
                                [queue := QueueHandle(queue, Durable, MainArguments(queue + DlxSuffix), c)]
  {
    var dlx := queue + DlxSuffix;
    var waitName := queue + WaitSuffix;
    var plName := queue + ParkingLotSuffix;
    var c := ConnectSpec(s).channel.value;
    var ops := TopologyOps(queue, ttl, c);
    var s4 := TopologyDeclarations(s, queue, ttl);
    DeclarationsLog(s, queue, ttl);
    var s5 := BindStep(s4, waitName, dlx, WaitRoutingKey);
    BindCached(s4, waitName, dlx, WaitRoutingKey);
    var s6 := BindStep(s5, queue, dlx, RetryRoutingKey);
    BindCached(s5, queue, dlx, RetryRoutingKey);
    BindCached(s6, plName, dlx, ParkingLotRoutingKey);
    assert ops == ops[..4] + [ops[4], ops[5], ops[6]];
  }

  /** The declarations on uncached names: after connecting, the first four
      topology operations, with the four handles cached under their names. */
  lemma DeclarationsLog(s: State, queue: string, ttl: int)
    requires Coherent(s) && TopologyUncached(s, queue)
    ensures var c := ConnectSpec(s).channel.value;
      var r := TopologyDeclarations(s, queue, ttl);
      && r.log == ConnectSpec(s).log + TopologyOps(queue, ttl, c)[..4]
      && r.exchanges == s.exchanges[queue + DlxSuffix := ExchangeHandle(queue + DlxSuffix, Topic, Durable, c)]
      && r.queues == s.queues[queue + WaitSuffix := QueueHandle(queue + WaitSuffix, Durable, WaitArguments(queue + DlxSuffix, ttl), c)]
                                [queue + ParkingLotSuffix := QueueHandle(queue + ParkingLotSuffix, Durable, [], c)]
                                [queue := QueueHandle(queue, Durable, MainArguments(queue + DlxSuffix), c)]
  {
    var dlx := queue + DlxSuffix;
    var waitName := queue + WaitSuffix;
    var plName := queue + ParkingLotSuffix;
    assert waitName != queue && plName != queue && waitName != plName by {
      assert |waitName| == |queue| + 5 && |plName| == |queue| + 3;
    }
    var c0 := ConnectSpec(s);
    var c := c0.channel.value;
    var ops := TopologyOps(queue, ttl, c);
    DeclareExchangeFresh(s, dlx, Topic);
    var s1 := DeclareExchangeStep(s, dlx, Topic);
    DeclareQueueFresh(s1, waitName, WaitArguments(dlx, ttl));
    var s2 := DeclareQueueStep(s1, waitName, WaitArguments(dlx, ttl));
    DeclareQueueFresh(s2, plName, []);
    var s3 := DeclareQueueStep(s2, plName, []);
    DeclareQueueFresh(s3, queue, MainArguments(dlx));
    assert ops[..4] == [ops[0], ops[1], ops[2], ops[3]];
  }

  /** Declaring an exchange not cached yet: connect, then declare a new
      durable handle of the given type on the current channel. */
  lemma DeclareExchangeFresh(s: State, name: string, kind: string)
    requires Coherent(s) && name !in s.exchanges
    ensures var c := ConnectSpec(s);
      var h := ExchangeHandle(name, kind, Durable, c.channel.value);
      DeclareExchangeStep(s, name, kind) == c.(exchanges := c.exchanges[name := h], log := c.log + [ExchangeDeclared(h)])
  {
  }

  /** Declaring a queue not cached yet on a live connection. */
  lemma DeclareQueueFresh(b: State, name: string, arguments: seq<Entry>)
    requires Coherent(b) && b.connected && name !in b.queues
    ensures var h := QueueHandle(name, Durable, arguments, b.channel.value);
      DeclareQueueStep(b, name, arguments) == b.(queues := b.queues[name := h], log := b.log + [QueueDeclared(h)])
  {
  }

  /** Declaring a queue already cached on a live connection declares the
      cached handle, whatever arguments are asked for now. */
  lemma DeclareQueueCached(b: State, name: string, arguments: seq<Entry>)
    requires Coherent(b) && b.connected && name in b.queues
    ensures DeclareQueueStep(b, name, arguments) == b.(log := b.log + [QueueDeclared(b.queues[name])])
  {
  }

  /** The retry loop that topology forms, provided nothing else was bound to
      the DLX before: a message rejected from the main queue dead-letters to
      the DLX with the wait key, which reaches only the wait queue; once its
      TTL (the minimum back-off) expires it dead-letters with the retry key,
      which reaches only the main queue; the parking-lot key reaches only the
      parking-lot queue. */
  lemma RetryLoop(s: State, queue: string, ttl: int)
    requires Coherent(s) && TopologyUncached(s, queue)
    requires forall i :: 0 <= i < |s.log| ==> !(s.log[i].Bound? && s.log[i].exchangeName == queue + DlxSuffix)
    ensures var r := TopologySpec(s, queue, ttl);
      var dlx := queue + DlxSuffix;
      && queue in r.queues && queue + WaitSuffix in r.queues && queue + ParkingLotSuffix in r.queues
      && DeadLetterTarget(r.queues[queue]) == (dlx, WaitRoutingKey)
      && BoundQueues(r.log, dlx, WaitRoutingKey) == [queue + WaitSuffix]
      && DeadLetterTarget(r.queues[queue + WaitSuffix]) == (dlx, RetryRoutingKey)
      && Lookup(r.queues[queue + WaitSuffix].arguments, "x-message-ttl") == Some(Int(ttl))
      && BoundQueues(r.log, dlx, RetryRoutingKey) == [queue]
      && BoundQueues(r.log, dlx, ParkingLotRoutingKey) == [queue + ParkingLotSuffix]
  {
    var dlx := queue + DlxSuffix;
    TopologyLog(s, queue, ttl);
    var c0 := ConnectSpec(s);
    var c := c0.channel.value;
    var r := TopologySpec(s, queue, ttl);
    TopologyRouting(queue, ttl, c);
    UnboundPrefix(s, queue, TopologyOps(queue, ttl, c), WaitRoutingKey);
    UnboundPrefix(s, queue, TopologyOps(queue, ttl, c), RetryRoutingKey);
    UnboundPrefix(s, queue, TopologyOps(queue, ttl, c), ParkingLotRoutingKey);
    assert r.queues[queue] == QueueHandle(queue, Durable, MainArguments(dlx), c);
    assert r.queues[queue + WaitSuffix] == QueueHandle(queue + WaitSuffix, Durable, WaitArguments(dlx, ttl), c);
  }

  /** The routing the seven topology operations set up on the DLX, and the
      dead-letter arguments of the wait and main queues. */
  lemma TopologyRouting(queue: string, ttl: int, c: nat)
    ensures var dlx := queue + DlxSuffix;
      var ops := TopologyOps(queue, ttl, c);
      && BoundQueues(ops, dlx, WaitRoutingKey) == [queue + WaitSuffix]
      && BoundQueues(ops, dlx, RetryRoutingKey) == [queue]
      && BoundQueues(ops, dlx, ParkingLotRoutingKey) == [queue + ParkingLotSuffix]
      && DeadLetterTarget(QueueHandle(queue, Durable, MainArguments(dlx), c)) == (dlx, WaitRoutingKey)
      && DeadLetterTarget(QueueHandle(queue + WaitSuffix, Durable, WaitArguments(dlx, ttl), c)) == (dlx, RetryRoutingKey)
      && Lookup(WaitArguments(dlx, ttl), "x-message-ttl") == Some(Int(ttl))
  {
    var dlx := queue + DlxSuffix;
    var ops := TopologyOps(queue, ttl, c);
    assert ops == ops[..4] + [ops[4]] + [ops[5]] + [ops[6]];
    RoutingOf(ops, dlx, WaitRoutingKey);
    RoutingOf(ops, dlx, RetryRoutingKey);
    RoutingOf(ops, dlx, ParkingLotRoutingKey);
    var wait := WaitArguments(dlx, ttl);
    var main := MainArguments(dlx);
    LookupFirst(wait, 0, "x-dead-letter-exchange");
    LookupFirst(wait, 1, "x-dead-letter-routing-key");
    LookupFirst(wait, 2, "x-message-ttl");
    LookupFirst(main, 0, "x-dead-letter-exchange");
    LookupFirst(main, 1, "x-dead-letter-routing-key");
  }

  /** Bindings of a seven-operation log whose first four are not bindings. */
  lemma RoutingOf(ops: seq<Op>, exchange: string, key: string)
    requires |ops| == 7 && forall i :: 0 <= i < 4 ==> !ops[i].Bound?
    ensures BoundQueues(ops, exchange, key)
      == (if ops[4].Bound? && ops[4].exchangeName == exchange && ops[4].routingKey == key then [ops[4].queue.name] else [])
       + (if ops[5].Bound? && ops[5].exchangeName == exchange && ops[5].routingKey == key then [ops[5].queue.name] else [])
       + (if ops[6].Bound? && ops[6].exchangeName == exchange && ops[6].routingKey == key then [ops[6].queue.name] else [])
  {
    NoBoundQueues(ops[..4], exchange, key);
    assert ops[..5] == ops[..4] + [ops[4]];
    assert ops[..6] == ops[..5] + [ops[5]];
    assert ops == ops[..6] + [ops[6]];
    BoundQueuesSnoc(ops[..4], ops[4], exchange, key);
    BoundQueuesSnoc(ops[..5], ops[5], exchange, key);
    BoundQueuesSnoc(ops[..6], ops[6], exchange, key);
  }

  /** Connecting adds no binding, so when the earlier log bound nothing to the
      DLX, the bindings on it are those of the operations that follow. */
  lemma UnboundPrefix(s: State, queue: string, ops: seq<Op>, key: string)
    requires Coherent(s)
    requires forall i :: 0 <= i < |s.log| ==> !(s.log[i].Bound? && s.log[i].exchangeName == queue + DlxSuffix)
    ensures BoundQueues(ConnectSpec(s).log + ops, queue + DlxSuffix, key) == BoundQueues(ops, queue + DlxSuffix, key)
  {
    var dlx := queue + DlxSuffix;
    var c0 := ConnectSpec(s);
    var tail := c0.log[|s.log|..];
    assert c0.log == s.log + tail;
    NoBoundQueues(s.log, dlx, key);
    NoBoundQueues(tail, dlx, key);
    BoundQueuesAppend(s.log, tail, dlx, key);
    BoundQueuesAppend(c0.log, ops, dlx, key);
  }

  /** A queue handle is created once: when the main queue was already
      obtained without arguments (by `get`, `ack` or `nack` before `setup`),
      `setupTopology` declares that handle, so the main queue gets no
      dead-letter arguments and rejected messages do not enter the retry loop. */
  lemma EarlierGetDropsDeadLettering(s: State, queue: string, ttl: int)
    requires Coherent(s) && queue !in s.queues
    ensures var g := GetSpec(s, queue).0;
      var r := TopologySpec(g, queue, ttl);
      && queue in r.queues
      && r.queues[queue] == QueueHandle(queue, Durable, [], ConnectSpec(s).channel.value)
      && DeadLetterTarget(r.queues[queue]) == ("", "")
  {
    GetCachesQueue(s, queue);
    ArgumentlessQueueKept(GetSpec(s, queue).0, queue, ttl);
  }

  /** The same holds when the first use of the main queue is an `ack` or a
      `nack`: both obtain the queue without arguments, as `get` does. */
  lemma EarlierAckNackDropsDeadLettering(s: State, queue: string, tag: string, flags: int, ttl: int)
    requires Coherent(s) && queue !in s.queues
    ensures var r := TopologySpec(AckSpec(s, queue, tag), queue, ttl);
      && queue in r.queues
      && r.queues[queue] == QueueHandle(queue, Durable, [], ConnectSpec(s).channel.value)
      && DeadLetterTarget(r.queues[queue]) == ("", "")
    ensures var r := TopologySpec(NackSpec(s, queue, tag, flags), queue, ttl);
      && queue in r.queues
      && r.queues[queue] == QueueHandle(queue, Durable, [], ConnectSpec(s).channel.value)
      && DeadLetterTarget(r.queues[queue]) == ("", "")
  {
    var a := AckSpec(s, queue, tag);
    var n := NackSpec(s, queue, tag, flags);
    assert a.queues == n.queues == QueueStep(s, queue, [], Durable).0.queues;
    ArgumentlessQueueKept(a, queue, ttl);
    ArgumentlessQueueKept(n, queue, ttl);
  }

  /** An argument-less main-queue handle outlives `setupTopology` and has no
      dead-letter target. */
  lemma ArgumentlessQueueKept(g: State, queue: string, ttl: int)
    requires Coherent(g) && queue in g.queues && g.queues[queue].arguments == []
    ensures var r := TopologySpec(g, queue, ttl);
      queue in r.queues && r.queues[queue] == g.queues[queue] && DeadLetterTarget(r.queues[queue]) == ("", "")
  {
    TopologyKeepsQueue(g, queue, ttl);
    LookupAbsent([], "x-dead-letter-exchange");
    LookupAbsent([], "x-dead-letter-routing-key");
  }

  /** `ack` and `nack` connect, obtain the queue (the cached handle, or a new
      one without arguments) and log one operation on it; the pending
      messages and the exchanges are untouched. */
  lemma AckNackLog(s: State, queue: string, tag: string, flags: int)
    requires Coherent(s)
    ensures var c := ConnectSpec(s);
      var h := if queue in s.queues then s.queues[queue] else QueueHandle(queue, Durable, [], c.channel.value);
      && AckSpec(s, queue, tag) == c.(queues := c.queues[queue := h], log := c.log + [Acked(h, tag)])
      && NackSpec(s, queue, tag, flags) == c.(queues := c.queues[queue := h], log := c.log + [Nacked(h, tag, flags)])
  {
    var c := ConnectSpec(s);
    if queue in s.queues {
      assert c.queues[queue := s.queues[queue]] == c.queues;
    }
  }

  /** `get` on a queue not cached yet caches a handle without arguments. */
  lemma GetCachesQueue(s: State, queue: string)
    requires Coherent(s) && queue !in s.queues
    ensures var g := GetSpec(s, queue).0;
      queue in g.queues && g.queues[queue] == QueueHandle(queue, Durable, [], ConnectSpec(s).channel.value)
  {
  }

  /** `setupTopology` keeps the handle already cached for the main queue. */
  lemma TopologyKeepsQueue(g: State, queue: string, ttl: int)
    requires Coherent(g) && queue in g.queues
    ensures var r := TopologySpec(g, queue, ttl);
      queue in r.queues && r.queues[queue] == g.queues[queue]
  {
    var dlx := queue + DlxSuffix;
    var s1 := DeclareExchangeStep(g, dlx, Topic);
    var s2 := DeclareQueueStep(s1, queue + WaitSuffix, WaitArguments(dlx, ttl));
    DeclareQueueKeeps(s1, queue + WaitSuffix, WaitArguments(dlx, ttl), queue);
    var s3 := DeclareQueueStep(s2, queue + ParkingLotSuffix, []);
    DeclareQueueKeeps(s2, queue + ParkingLotSuffix, [], queue);
    var s4 := DeclareQueueStep(s3, queue, MainArguments(dlx));
    DeclareQueueKeeps(s3, queue, MainArguments(dlx), queue);
    var s5 := BindStep(s4, queue + WaitSuffix, dlx, WaitRoutingKey);
    BindKeeps(s4, queue + WaitSuffix, dlx, WaitRoutingKey, queue);
    var s6 := BindStep(s5, queue, dlx, RetryRoutingKey);
    BindKeeps(s5, queue, dlx, RetryRoutingKey, queue);
    BindKeeps(s6, queue + ParkingLotSuffix, dlx, ParkingLotRoutingKey, queue);
  }

  /** Declaring a queue never replaces another cached handle. */
  lemma DeclareQueueKeeps(b: State, name: string, arguments: seq<Entry>, queue: string)
    requires Coherent(b) && queue in b.queues
    ensures var r := DeclareQueueStep(b, name, arguments);
      queue in r.queues && r.queues[queue] == b.queues[queue]
  {
  }

  /** Binding never replaces a cached handle. */
  lemma BindKeeps(b: State, name: string, exchange: string, key: string, queue: string)
    requires Coherent(b) && queue in b.queues
    ensures var r := BindStep(b, name, exchange, key);
      queue in r.queues && r.queues[queue] == b.queues[queue]
  {
  }

  /** One more event binds it after the earlier ones. */
  lemma BindingsSnoc(s: State, events: seq<string>, event: string, queue: string)
    requires Coherent(s)
    ensures var route := BindingRoute(event);
      BindingsSpec(s, events + [event], queue)
        == BindStep(BindingsSpec(s, events, queue), queue, route.exchange, route.routingKey)
  {
    assert (events + [event])[..|events|] == events;
  }

  /** `setupBindings` on a non-empty event list calls `queue()` for every
      event, but only the first call can connect or create the handle: every
      bind uses that same cached handle, to the event's exchange with its
      routing key, in registration order (a connection never drops in this
      model). */
  lemma {:induction false} BindingsLog(s: State, events: seq<string>, queue: string)
    requires Coherent(s)
    requires events != []
    ensures var c := QueueStep(s, queue, [], Durable).0;
      BindingsSpec(s, events, queue) == c.(log := c.log + BindingOps(QueueStep(s, queue, [], Durable).1, events))
    decreases |events|
  {
    var c := QueueStep(s, queue, [], Durable).0;
    var h := QueueStep(s, queue, [], Durable).1;
    var init := events[..|events| - 1];
    var last := BindingRoute(events[|events| - 1]);
    BindingOpsSnoc(h, events);
    if init == [] {
      assert BindingsSpec(s, init, queue) == s;
    } else {
      BindingsLog(s, init, queue);
      var b := BindingsSpec(s, init, queue);
      BindCached(b, queue, last.exchange, last.routingKey);
      assert b.log + [Bound(h, last.exchange, last.routingKey)]
          == c.log + (BindingOps(h, init) + [Bound(h, last.exchange, last.routingKey)]);
    }
  }

  /** Binding a queue whose handle is cached on a live connection appends
      the binding of that handle and changes nothing else. */
  lemma BindCached(b: State, queue: string, exchange: string, key: string)
    requires Coherent(b) && b.connected && queue in b.queues
    ensures BindStep(b, queue, exchange, key) == b.(log := b.log + [Bound(b.queues[queue], exchange, key)])
  {
  }

  /** `setup` with both options identical to true: the topology first, then
      the bindings on the main queue handle the topology created, which
      carries the dead-letter arguments. */
  lemma SetupBothSteps(s: State, events: seq<string>, queue: string, o: Options)
    requires Coherent(s) && TopologyUncached(s, queue)
    requires o.setupTopology == Bool(true) && o.setupBindings == Bool(true)
    ensures var c := ConnectSpec(s).channel.value;
      SetupSpec(s, events, queue, o).log
        == ConnectSpec(s).log + TopologyOps(queue, o.minRetryBackoff, c)
           + BindingOps(QueueHandle(queue, Durable, MainArguments(queue + DlxSuffix), c), events)
  {
    var t := TopologySpec(s, queue, o.minRetryBackoff);
    TopologyLog(s, queue, o.minRetryBackoff);
    if events != [] {
      BindingsLog(t, events, queue);
    } else {
      assert BindingOps(QueueHandle(queue, Durable, MainArguments(queue + DlxSuffix), ConnectSpec(s).channel.value), events) == [];
    }
  }

  /** The two options are compared with `===`: only the boolean true turns a
      step on, so truthy values such as 1 or "yes" leave the broker untouched. */
  lemma SetupNeedsIdenticalTrue(s: State, events: seq<string>, queue: string, o: Options)
    requires Coherent(s)
    requires o.setupTopology != Bool(true) && o.setupBindings != Bool(true)
    ensures SetupSpec(s, events, queue, o) == s
    ensures !SetupConnects(events, o)
  {
  }

  /** A stored QoS setting is applied to the channel of the next fresh
      connection only: an open connection keeps its channel as it is. */
  lemma QosAppliedOnFreshConnect(s: State, size: int, count: int)
    requires Coherent(s)
    ensures var q := s.(qualityOfService := Some(Qos(size, count)));
      var ops := [Connected, ChannelOpened(s.channelsOpened), QosApplied(s.channelsOpened, size, count)];
      && (!s.connected ==> ConnectSpec(q).log == s.log + ops)
      && (s.connected ==> ConnectSpec(q).log == s.log)
  {
  }

  /** `publish` on an exchange not yet used creates a durable fanout handle
      and publishes the message's body, flags and attributes with the given
      routing key. */
  lemma PublishLog(s: State, message: AmqpMessage, exchange: string, routingKey: string)
    requires Coherent(s) && exchange !in s.exchanges
    ensures var c := ConnectSpec(s);
      PublishSpec(s, message, exchange, routingKey).log
        == c.log + [Published(ExchangeHandle(exchange, Fanout, Durable, c.channel.value),
                              message.body, routingKey, message.flags, message.attributes)]
  {
  }

  class Connection {
    /** Whether `pconnect` succeeds; the broker is outside the model. */
    const reachable: bool
    var connected: bool
    var channel: Option<nat>
    var channelsOpened: nat
    var exchanges: map<string, ExchangeHandle>
    var queues: map<string, QueueHandle>
    var qualityOfService: Option<Qos>
    var pending: map<string, seq<BrokerEnvelope>>
    var log: seq<Op>

    function Snapshot(): State
      reads this
    {
      State(connected, channel, channelsOpened, exchanges, queues, qualityOfService, pending, log)
    }

    predicate Valid()
      reads this
    {
      Coherent(Snapshot())
    }

    /** No connection is opened until the first call that needs one. */
    constructor(reachable: bool, pending: map<string, seq<BrokerEnvelope>>)
      ensures Valid() && this.reachable == reachable
      ensures Snapshot() == State(false, None, 0, map[], map[], None, pending, [])
    {
      this.reachable := reachable;
      connected := false;
      channel := None;
      channelsOpened := 0;
      exchanges := map[];
      queues := map[];
      qualityOfService := None;
      this.pending := pending;
      log := [];
    }

    /** `connect`: fails, changing nothing, only when a new connection is
      needed and the broker cannot be reached. */
    method Connect() returns (ok: bool)
      requires Valid()
      modifies this
      ensures Valid()
      ensures ok == (old(connected) || reachable)
      ensures ok ==> Snapshot() == ConnectSpec(old(Snapshot()))
      ensures !ok ==> Snapshot() == old(Snapshot())
    {
      if connected {
        return true;
      }
      if !reachable {
        return false;
      }
      var c := channelsOpened;
      log := log + [Op.Connected];
      connected := true;
      channel := Some(c);
      channelsOpened := c + 1;
      log := log + [ChannelOpened(c)];
      if qualityOfService.Some? {
        log := log + [QosApplied(c, qualityOfService.value.size, qualityOfService.value.count)];
      }
      ok := true;
    }

    method Exchange(name: string, kind: string := Fanout, flags: int := Durable) returns (ok: bool, h: ExchangeHandle)
      requires Valid()
      modifies this
      ensures Valid()
      ensures ok == (old(connected) || reachable)
      ensures ok ==> (Snapshot(), h) == ExchangeStep(old(Snapshot()), name, kind, flags)
      ensures !ok ==> Snapshot() == old(Snapshot())
    {
      ok := Connect();
      h := ExchangeHandle(name, kind, flags, 0);
      if !ok {
        return;
      }
      if name !in exchanges {
        h := ExchangeHandle(name, kind, flags, channel.value);
        exchanges := exchanges[name := h];
      }
      h := exchanges[name];
    }

    method Queue(name: string, arguments: seq<Entry> := [], flags: int := Durable) returns (ok: bool, h: QueueHandle)
      requires Valid()
      modifies this
      ensures Valid()
      ensures ok == (old(connected) || reachable)
      ensures ok ==> (Snapshot(), h) == QueueStep(old(Snapshot()), name, arguments, flags)
      ensures !ok ==> Snapshot() == old(Snapshot())
    {
      ok := Connect();
      h := QueueHandle(name, flags, arguments, 0);
      if !ok {
        return;
      }
      if name !in queues {
        h := QueueHandle(name, flags, arguments, channel.value);
        queues := queues[name := h];
      }
      h := queues[name];
    }

    /** The broker side of a handle method: one more entry in the log. */
    method Record(op: Op)
      modifies this
      ensures Snapshot() == old(Snapshot()).(log := old(log) + [op])
    {
      log := log + [op];
    }

    method Publish(message: AmqpMessage, exchange: string, routingKey: string) returns (ok: bool)
      requires Valid()
      modifies this
      ensures Valid()
      ensures ok == (old(connected) || reachable)
      ensures ok ==> Snapshot() == PublishSpec(old(Snapshot()), message, exchange, routingKey)
      ensures !ok ==> Snapshot() == old(Snapshot())
    {
      var h;
      ok, h := Exchange(exchange);
      if ok {
        Record(Published(h, message.body, routingKey, message.flags, message.attributes));
      }
    }

    method DeclareExchange(name: string, kind: string) returns (ok: bool)
      requires Valid()
      modifies this
      ensures Valid()
      ensures ok == (old(connected) || reachable)
      ensures ok ==> Snapshot() == DeclareExchangeStep(old(Snapshot()), name, kind)
      ensures !ok ==> Snapshot() == old(Snapshot())
    {
      var h;
      ok, h := Exchange(name, kind);
      if ok {
        Record(ExchangeDeclared(h));
      }
    }

    method DeclareQueue(name: string, arguments: seq<Entry>) returns (ok: bool)
      requires Valid()
      modifies this
      ensures Valid()
      ensures ok == (old(connected) || reachable)
      ensures ok ==> Snapshot() == DeclareQueueStep(old(Snapshot()), name, arguments)
      ensures !ok ==> Snapshot() == old(Snapshot())
    {
      var h;
      ok, h := Queue(name, arguments);
      if ok {
        Record(QueueDeclared(h));
      }
    }

    method Bind(name: string, exchange: string, key: string) returns (ok: bool)
      requires Valid()
      modifies this
      ensures Valid()
      ensures ok == (old(connected) || reachable)
      ensures ok ==> Snapshot() == BindStep(old(Snapshot()), name, exchange, key)
      ensures !ok ==> Snapshot() == old(Snapshot())
    {
      var h;
      ok, h := Queue(name);
      if ok {
        Record(Bound(h, exchange, key));
      }
    }

    method SetupTopology(queue: string, minRetryBackoff: int) returns (ok: bool)
      requires Valid()
      modifies this
      ensures Valid()
      ensures ok == (old(connected) || reachable)
      ensures ok ==> Snapshot() == TopologySpec(old(Snapshot()), queue, minRetryBackoff)
      ensures !ok ==> Snapshot() == old(Snapshot())
    {
      var dlxExchange := queue + DlxSuffix;
      var waitQueue := queue + WaitSuffix;
      var parkingLotQueue := queue + ParkingLotSuffix;
      ok := DeclareExchange(dlxExchange, Topic);
      if !ok {
        return;
      }
      var done := DeclareQueue(waitQueue, WaitArguments(dlxExchange, minRetryBackoff));
      done := DeclareQueue(parkingLotQueue, []);
      done := DeclareQueue(queue, MainArguments(dlxExchange));
      done := Bind(waitQueue, dlxExchange, WaitRoutingKey);
      done := Bind(queue, dlxExchange, RetryRoutingKey);
      done := Bind(parkingLotQueue, dlxExchange, ParkingLotRoutingKey);
    }

    method SetupBindings(events: seq<string>, queue: string) returns (ok: bool)
      requires Valid()
      modifies this
      ensures Valid()
      ensures ok == (events == [] || old(connected) || reachable)
      ensures ok ==> Snapshot() == BindingsSpec(old(Snapshot()), events, queue)
      ensures !ok ==> Snapshot() == old(Snapshot())
    {
      ghost var s0 := Snapshot();
      ghost var done: seq<string> := [];
      var i := 0;
      while i < |events|
        invariant 0 <= i <= |events| && done == events[..i]
        invariant Valid()
        invariant Snapshot() == BindingsSpec(s0, done, queue)
        invariant i > 0 ==> connected && (old(connected) || reachable)
        invariant i == 0 ==> Snapshot() == s0
      {
        var route := BindingRoute(events[i]);
        var bound := Bind(queue, route.exchange, route.routingKey);
        if !bound {
          assert i == 0;
          return false;
        }
        BindingsSnoc(s0, done, events[i], queue);
        done := done + [events[i]];
        i := i + 1;
      }
      assert done == events;
      ok := true;
    }

    method Setup(events: seq<string>, queue: string, options: Options) returns (ok: bool)
      requires Valid()
      modifies this
      ensures Valid()
      ensures ok == (!SetupConnects(events, options) || old(connected) || reachable)
      ensures ok ==> Snapshot() == SetupSpec(old(Snapshot()), events, queue, options)
      ensures !ok ==> Snapshot() == old(Snapshot())
    {
      ok := true;
      if options.setupTopology == Bool(true) {
        ok := SetupTopology(queue, options.minRetryBackoff);
        if !ok {
          return;
        }
      }
      if options.setupBindings == Bool(true) {
        ok := SetupBindings(events, queue);
      }
    }

    /** `get`: the broker's `false` for an empty queue becomes None. */
    method Get(queue: string) returns (ok: bool, m: Option<BrokerEnvelope>)
      requires Valid()
      modifies this
      ensures Valid()
      ensures ok == (old(connected) || reachable)
      ensures ok ==> (Snapshot(), m) == GetSpec(old(Snapshot()), queue)
      ensures !ok ==> Snapshot() == old(Snapshot())
    {
      var h;
      ok, h := Queue(queue);
      m := None;
      if ok {
        Record(Fetched(h));
        m := Next(pending, queue);
        pending := Rest(pending, queue);
      }
    }

    method Ack(queue: string, deliveryTag: string) returns (ok: bool)
      requires Valid()
      modifies this
      ensures Valid()
      ensures ok == (old(connected) || reachable)
      ensures ok ==> Snapshot() == AckSpec(old(Snapshot()), queue, deliveryTag)
      ensures !ok ==> Snapshot() == old(Snapshot())
    {
      var h;
      ok, h := Queue(queue);
      if ok {
        Record(Acked(h, deliveryTag));
      }
    }

    method Nack(queue: string, deliveryTag: string, flags: int := NoParam) returns (ok: bool)
      requires Valid()
      modifies this
      ensures Valid()
      ensures ok == (old(connected) || reachable)
      ensures ok ==> Snapshot() == NackSpec(old(Snapshot()), queue, deliveryTag, flags)
      ensures !ok ==> Snapshot() == old(Snapshot())
    {
      var h;
      ok, h := Queue(queue);
      if ok {
        Record(Nacked(h, deliveryTag, flags));
      }
    }

    /** `setQualityOfService` only stores the setting (it is applied at the
      next fresh connect) and returns the manager itself. */
    method SetQualityOfService(size: int, count: int) returns (self: Connection)
      modifies this
      ensures self == this
      ensures Snapshot() == old(Snapshot()).(qualityOfService := Some(Qos(size, count)))
    {
      qualityOfService := Some(Qos(size, count));
      self := this;
    }
  }
}
