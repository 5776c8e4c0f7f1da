/** The topology manager of the first revision (src/AMQPConnection.php): a
    channel opened lazily on first need, name-keyed caches of fanout
    exchanges and durable queues, and a `setup` that declares the main queue,
    optionally behind a dead-letter exchange, and binds it for every event. */
module LegacyConnection {
  import opened Outcomes
  import opened Php
  import opened Messages
  import opened EventTypes
  import opened Broker

  const DlxSuffix: string := ".dlx"

  /** The one channel this manager ever opens. */
  const ChannelId: nat := 0

  datatype State = State(
    channel: Option<nat>,
    exchanges: map<string, ExchangeHandle>,
    queues: map<string, QueueHandle>,
    pending: map<string, seq<BrokerEnvelope>>,
    log: seq<Op>)

  /** Handles exist only once the channel does; each is filed under its own
      name, on that channel; exchanges are durable fanout, queues durable. */
  predicate Coherent(s: State) {
    && (s.channel.None? ==> s.exchanges == map[] && s.queues == map[])
    && (s.channel.Some? ==> s.channel.value == ChannelId)
    && (forall k :: k in s.exchanges ==> s.exchanges[k] == ExchangeHandle(k, Fanout, Durable, ChannelId))
    && (forall k :: k in s.queues ==> s.queues[k].name == k && s.queues[k].flags == Durable && s.queues[k].channel == ChannelId)
  }

  /** `channel()`: the existing channel, or a connection and a new channel. */
  function ChannelSpec(s: State): (r: State)
    requires Coherent(s)
    ensures Coherent(r) && r.channel == Some(ChannelId)
    ensures s.channel.Some? ==> r == s
    ensures s.channel.None? ==> r == s.(channel := Some(ChannelId), log := s.log + [Connected, ChannelOpened(ChannelId)])
  {
    if s.channel.Some? then s
    else s.(channel := Some(ChannelId), log := s.log + [Connected, ChannelOpened(ChannelId)])
  }

  /** `exchange($name)`: a cached exchange is returned without touching the
      channel; a new one is always a durable fanout exchange. */
  function ExchangeStep(s: State, name: string): (r: (State, ExchangeHandle))
    requires Coherent(s)
    ensures Coherent(r.0) && r.0.channel.Some?
    ensures name in r.0.exchanges && r.0.exchanges[name] == r.1
    ensures r.1 == ExchangeHandle(name, Fanout, Durable, ChannelId)
    ensures name in s.exchanges ==> r.0 == s
    ensures name !in s.exchanges ==> r.0.log == ChannelSpec(s).log
  {
    if name in s.exchanges then (s, s.exchanges[name])
    else
      var c := ChannelSpec(s);
      var h := ExchangeHandle(name, Fanout, Durable, ChannelId);
      (c.(exchanges := c.exchanges[name := h]), h)
  }

  /** `queue($name, $arguments)`: a cached queue is returned as it was first
      created; a new one is durable with the given arguments. */
  function QueueStep(s: State, name: string, arguments: seq<Entry>): (r: (State, QueueHandle))
    requires Coherent(s)
    ensures Coherent(r.0) && r.0.channel.Some?
    ensures name in r.0.queues && r.0.queues[name] == r.1
    ensures name in s.queues ==> r == (s, s.queues[name])
    ensures name !in s.queues ==> r.1 == QueueHandle(name, Durable, arguments, ChannelId) && r.0.log == ChannelSpec(s).log
  {
    if name in s.queues then (s, s.queues[name])
    else
      var c := ChannelSpec(s);
      var h := QueueHandle(name, Durable, arguments, ChannelId);
      (c.(queues := c.queues[name := h]), h)
  }

  function DeclareExchangeStep(s: State, name: string): (r: State)
    requires Coherent(s)
    ensures Coherent(r) && r.channel.Some?
  {
    var (c, h) := ExchangeStep(s, name);
    c.(log := c.log + [ExchangeDeclared(h)])
  }

  function DeclareQueueStep(s: State, name: string, arguments: seq<Entry>): (r: State)
    requires Coherent(s)
    ensures Coherent(r) && r.channel.Some?
  {
    var (c, h) := QueueStep(s, name, arguments);
    c.(log := c.log + [QueueDeclared(h)])
  }

  /** `queue($name)->bind($exchange, $key)`; a bind without a routing key is
      modelled with the empty key. */
  function BindStep(s: State, name: string, exchange: string, key: string): (r: State)
    requires Coherent(s)
    ensures Coherent(r) && r.channel.Some?
  {
    var (c, h) := QueueStep(s, name, []);
    c.(log := c.log + [Bound(h, exchange, key)])
  }

  /** The main queue's arguments: a dead-letter exchange only with DLX. */
  function MainArguments(withDlx: bool, queue: string): seq<Entry> {
    if withDlx then [Entry("x-dead-letter-exchange", Str(queue + DlxSuffix))] else []
  }

  /** The event bindings of `setup`, one per event, in order. */
  function BindingsSpec(s: State, events: seq<string>, queue: string): (r: State)
    requires Coherent(s)
    ensures Coherent(r)
    ensures events == [] ==> r == s
    decreases |events|
  {
    if events == [] then s
    else
      var last := BindingRoute(events[|events| - 1]);
      BindStep(BindingsSpec(s, events[..|events| - 1], queue), queue, last.exchange, last.routingKey)
  }

  /** The optional dead-letter part of `setup`: exchange and queue `<queue>.dlx`,
      the queue bound to the exchange. */
  function DlxSpec(s: State, queue: string): (r: State)
    requires Coherent(s)
    ensures Coherent(r) && r.channel.Some?
  {
    var dlx := queue + DlxSuffix;
    BindStep(DeclareQueueStep(DeclareExchangeStep(s, dlx), dlx, []), dlx, dlx, "")
  }

  /** `setup($events, $withDLX, $queue)`. */
  function SetupSpec(s: State, events: seq<string>, withDlx: bool, queue: string): (r: State)
    requires Coherent(s)
    ensures Coherent(r) && r.channel.Some?
  {
    var s1 := if withDlx then DlxSpec(s, queue) else s;
    var s2 := DeclareQueueStep(s1, queue, MainArguments(withDlx, queue));
    BindingsSpec(s2, events, queue)
  }

  /** `publish`: the body with no flags and no attributes, whatever headers
      or delay the caller passes. */
  function PublishSpec(s: State, body: string, exchange: string, routingKey: string): (r: State)
    requires Coherent(s)
    ensures Coherent(r) && r.channel.Some?
  {
    var (c, h) := ExchangeStep(s, exchange);
    c.(log := c.log + [Published(h, Str(body), routingKey, NoParam, [])])
  }

  /** `get`: the return type is a non-nullable \AMQPEnvelope, so the broker's
      `false` for an empty queue becomes a TypeError after the fetch. */
  function GetSpec(s: State, queue: string): (r: (State, Result<BrokerEnvelope>))
    requires Coherent(s)
    ensures Coherent(r.0) && r.0.channel.Some?
    ensures r.0.pending == Rest(s.pending, queue)
    ensures Next(s.pending, queue).None? <==> r.1 == Err(TypeError)
    ensures Next(s.pending, queue).Some? ==> r.1 == Ok(Next(s.pending, queue).value)
  {
    var (c, h) := QueueStep(s, queue, []);
    var m := Next(c.pending, queue);
    (c.(log := c.log + [Fetched(h)], pending := Rest(c.pending, queue)),
     if m.Some? then Ok(m.value) else Err(TypeError))
  }

  function AckSpec(s: State, queue: string, tag: string): (r: State)
    requires Coherent(s)
    ensures Coherent(r) && r.channel.Some?
  {
    var (c, h) := QueueStep(s, queue, []);
    c.(log := c.log + [Acked(h, tag)])
  }

  function NackSpec(s: State, queue: string, tag: string, flags: int): (r: State)
    requires Coherent(s)
    ensures Coherent(r) && r.channel.Some?
  {
    var (c, h) := QueueStep(s, queue, []);
    c.(log := c.log + [Nacked(h, tag, flags)])
  }

  /** `publish` on an exchange not cached yet: the channel is opened if
      needed, a durable fanout handle is created, and the body alone is
      published with the routing key, AMQP_NOPARAM and no attributes; the
      queues and the waiting messages are untouched. */
  lemma PublishLog(s: State, body: string, exchange: string, routingKey: string)
    requires Coherent(s) && exchange !in s.exchanges
    ensures var r := PublishSpec(s, body, exchange, routingKey);
      && r.log == ChannelSpec(s).log
           + [Published(ExchangeHandle(exchange, Fanout, Durable, ChannelId), Str(body), routingKey, NoParam, [])]
      && r.queues == s.queues && r.pending == s.pending
      && r.exchanges == s.exchanges[exchange := ExchangeHandle(exchange, Fanout, Durable, ChannelId)]
  {
  }

  /** `ack` and `nack` on a cached queue use the cached handle, whatever
      arguments it was created with, and change nothing but the log. */
  lemma AckNackLog(s: State, queue: string, tag: string, flags: int)
    requires Coherent(s) && queue in s.queues
    ensures AckSpec(s, queue, tag) == s.(log := s.log + [Acked(s.queues[queue], tag)])
    ensures NackSpec(s, queue, tag, flags) == s.(log := s.log + [Nacked(s.queues[queue], tag, flags)])
  {
  }

  /** The operations of the dead-letter part of `setup` on uncached names. */
  function DlxOps(queue: string): seq<Op> {
    var dlx := queue + DlxSuffix;
    var dlxQueue := QueueHandle(dlx, Durable, [], ChannelId);
    [ExchangeDeclared(ExchangeHandle(dlx, Fanout, Durable, ChannelId)), QueueDeclared(dlxQueue), Bound(dlxQueue, dlx, "")]
  }

  /** The main queue handle `setup` creates. */
  function MainHandle(withDlx: bool, queue: string): QueueHandle {
    QueueHandle(queue, Durable, MainArguments(withDlx, queue), ChannelId)
  }

  /** The operations of `setup` on names not cached yet. */
  function SetupOps(events: seq<string>, withDlx: bool, queue: string): seq<Op>
  {
    (if withDlx then DlxOps(queue) else [])
    + [QueueDeclared(MainHandle(withDlx, queue))] + BindingOps(MainHandle(withDlx, queue), events)
  }

  /** `setup`'s bindings obtain the cached main queue and bind it once per
      event, to the event's exchange with its routing key, in order. */
  lemma {:induction false} BindingsLog(s: State, events: seq<string>, queue: string)
    requires Coherent(s) && queue in s.queues
    ensures BindingsSpec(s, events, queue) == s.(log := s.log + BindingOps(s.queues[queue], events))
    decreases |events|
  {
    var h := s.queues[queue];
    if events == [] {
      assert s.log + BindingOps(h, events) == s.log;
    } else {
      var init := events[..|events| - 1];
      var last := BindingRoute(events[|events| - 1]);
      BindingsLog(s, init, queue);
      BindingOpsSnoc(h, events);
    }
  }

  /** One more event binds it after the earlier ones. */
  lemma BindingsSnoc(s: State, events: seq<string>, event: string, queue: string)
    requires Coherent(s)
    ensures var route := BindingRoute(event);
      BindingsSpec(s, events + [event], queue)
        == BindStep(BindingsSpec(s, events, queue), queue, route.exchange, route.routingKey)
  {
    assert (events + [event])[..|events|] == events;
  }

  /** The dead-letter part opens the channel if needed, declares the exchange
      and the queue `<queue>.dlx` and binds them, caching both. */
  lemma DlxLog(s: State, queue: string)
    requires Coherent(s)
    requires queue + DlxSuffix !in s.queues && queue + DlxSuffix !in s.exchanges
    ensures DlxSpec(s, queue).log == ChannelSpec(s).log + DlxOps(queue)
    ensures DlxSpec(s, queue).queues.Keys == s.queues.Keys + {queue + DlxSuffix}
  {
    var dlx := queue + DlxSuffix;
    var ops := DlxOps(queue);
    var c0 := ChannelSpec(s);
    var a := DeclareExchangeStep(s, dlx);
    assert a.log == c0.log + ops[..1] && a.queues == s.queues;
    var b := DeclareQueueStep(a, dlx, []);
    assert b.log == c0.log + ops[..2];
    assert b.queues[dlx] == QueueHandle(dlx, Durable, [], ChannelId);
  }

  /** On uncached names, `setup` opens the channel if needed and performs
      exactly the operations of `SetupOps`: with DLX, a fanout exchange and a
      queue both named `<queue>.dlx`, bound together; then the main queue,
      dead-lettering to `<queue>.dlx` only with DLX; then one binding of the
      main queue per event. */
  lemma SetupLog(s: State, events: seq<string>, withDlx: bool, queue: string)
    requires Coherent(s)
    requires queue !in s.queues && queue + DlxSuffix !in s.queues && queue + DlxSuffix !in s.exchanges
    ensures var r := SetupSpec(s, events, withDlx, queue);
      && r.log == ChannelSpec(s).log + SetupOps(events, withDlx, queue)
      && queue in r.queues && r.queues[queue] == MainHandle(withDlx, queue)
  {
    if withDlx {
      SetupWithDlx(s, events, withDlx, queue);
    } else {
      SetupWithoutDlx(s, events, withDlx, queue);
    }
  }

  /** The case of `SetupLog` without DLX: only the main-queue part. */
  lemma SetupWithoutDlx(s: State, events: seq<string>, withDlx: bool, queue: string)
    requires Coherent(s) && !withDlx && queue !in s.queues
    ensures var r := SetupSpec(s, events, withDlx, queue);
      && r.log == ChannelSpec(s).log + SetupOps(events, withDlx, queue)
      && queue in r.queues && r.queues[queue] == MainHandle(withDlx, queue)
  {
    var main := MainHandle(false, queue);
    var bindings := BindingOps(main, events);
    MainPart(s, events, false, queue);
    assert SetupSpec(s, events, false, queue)
        == BindingsSpec(DeclareQueueStep(s, queue, MainArguments(false, queue)), events, queue);
    assert SetupOps(events, false, queue) == [] + [QueueDeclared(main)] + bindings;
    assert [] + [QueueDeclared(main)] + bindings == [QueueDeclared(main)] + bindings;
    Regroup3(ChannelSpec(s).log, [QueueDeclared(main)], bindings);
  }

  /** The case of `SetupLog` with DLX: the dead-letter part first, then the
      main-queue part on the channel it opened. */
  lemma SetupWithDlx(s: State, events: seq<string>, withDlx: bool, queue: string)
    requires Coherent(s) && withDlx
    requires queue !in s.queues && queue + DlxSuffix !in s.queues && queue + DlxSuffix !in s.exchanges
    ensures var r := SetupSpec(s, events, withDlx, queue);
      && r.log == ChannelSpec(s).log + SetupOps(events, withDlx, queue)
      && queue in r.queues && r.queues[queue] == MainHandle(withDlx, queue)
  {
    var dlx := queue + DlxSuffix;
    assert dlx != queue by {
      assert |dlx| == |queue| + 4;
    }
    var main := MainHandle(true, queue);
    DlxLog(s, queue);
    var s1 := DlxSpec(s, queue);
    MainPart(s1, events, true, queue);
    assert ChannelSpec(s1) == s1;
    var r := SetupSpec(s, events, true, queue);
    assert r == BindingsSpec(DeclareQueueStep(s1, queue, MainArguments(true, queue)), events, queue);
    assert r.log == ChannelSpec(s).log + DlxOps(queue) + [QueueDeclared(main)] + BindingOps(main, events);
    Regroup(ChannelSpec(s).log, DlxOps(queue), [QueueDeclared(main)], BindingOps(main, events));
  }

  /** Regrouping a log made of three parts; stated once here, because the
      solver is slow to find it among the facts about a setup log. */
  lemma Regroup3(a: seq<Op>, b: seq<Op>, c: seq<Op>)
    ensures a + b + c == a + (b + c)
  {
  }

  /** Regrouping a log made of four parts, for the same reason. */
  lemma Regroup(a: seq<Op>, b: seq<Op>, c: seq<Op>, d: seq<Op>)
    ensures a + b + c + d == a + (b + c + d)
  {
  }

  /** The main-queue part of `setup`: the queue declared with its arguments,
      then bound for every event. */
  lemma MainPart(s: State, events: seq<string>, withDlx: bool, queue: string)
    requires Coherent(s) && queue !in s.queues
    ensures var r := BindingsSpec(DeclareQueueStep(s, queue, MainArguments(withDlx, queue)), events, queue);
      && r.log == ChannelSpec(s).log + [QueueDeclared(MainHandle(withDlx, queue))] + BindingOps(MainHandle(withDlx, queue), events)
      && queue in r.queues && r.queues[queue] == MainHandle(withDlx, queue)
  {
    var s2 := DeclareQueueStep(s, queue, MainArguments(withDlx, queue));
    assert s2.queues[queue] == MainHandle(withDlx, queue);
    assert s2.log == ChannelSpec(s).log + [QueueDeclared(MainHandle(withDlx, queue))];
    BindingsLog(s2, events, queue);
    var r := BindingsSpec(s2, events, queue);
    assert r == s2.(log := s2.log + BindingOps(MainHandle(withDlx, queue), events));
    assert r.queues[queue] == MainHandle(withDlx, queue);
    assert r.log == ChannelSpec(s).log + [QueueDeclared(MainHandle(withDlx, queue))] + BindingOps(MainHandle(withDlx, queue), events);
  }

  /** Among the setup operations, the only binding on `<queue>.dlx`, under
      any key, is that of the `<queue>.dlx` queue with the empty key, when no
      event is published on the DLX exchange. */
  lemma SetupOpsRouting(events: seq<string>, queue: string, key: string)
    requires forall i :: 0 <= i < |events| ==> BindingRoute(events[i]).exchange != queue + DlxSuffix
    ensures BoundQueues(SetupOps(events, true, queue), queue + DlxSuffix, key) == if key == "" then [queue + DlxSuffix] else []
  {
    var dlx := queue + DlxSuffix;
    var main := MainHandle(true, queue);
    var tail := [QueueDeclared(main)] + BindingOps(main, events);
    assert SetupOps(events, true, queue) == DlxOps(queue) + tail;
    DlxOpsRouting(queue, key);
    MainOpsRouting(main, events, dlx, key);
    BoundQueuesAppend(DlxOps(queue), tail, dlx, key);
  }

  /** The dead-letter part binds only the `<queue>.dlx` queue to its
      exchange, with the empty key. */
  lemma DlxOpsRouting(queue: string, key: string)
    ensures BoundQueues(DlxOps(queue), queue + DlxSuffix, key) == if key == "" then [queue + DlxSuffix] else []
  {
    var dlx := queue + DlxSuffix;
    var ops := DlxOps(queue);
    assert ops == ops[..2] + [ops[2]];
    NoBoundQueues(ops[..2], dlx, key);
    BoundQueuesSnoc(ops[..2], ops[2], dlx, key);
  }

  /** The main-queue part binds nothing to an exchange no event names. */
  lemma MainOpsRouting(main: QueueHandle, events: seq<string>, dlx: string, key: string)
    requires forall i :: 0 <= i < |events| ==> BindingRoute(events[i]).exchange != dlx
    ensures BoundQueues([QueueDeclared(main)] + BindingOps(main, events), dlx, key) == []
  {
    var tail := [QueueDeclared(main)] + BindingOps(main, events);
    forall i | 0 <= i < |tail| ensures !(tail[i].Bound? && tail[i].exchangeName == dlx) {
      if i > 0 {
        assert tail[i] == BindingOps(main, events)[i - 1];
      }
    }
    NoBoundQueues(tail, dlx, key);
  }

  /** With DLX, a message rejected from the main queue dead-letters to
      `<queue>.dlx`, a fanout exchange whose one binding, under any key, is
      the `<queue>.dlx` queue; a fanout exchange ignores routing keys, so it
      routes every dead letter there, provided nothing else was bound to it
      before. Without DLX the main queue has no arguments at all. */
  lemma DeadLettering(s: State, events: seq<string>, withDlx: bool, queue: string)
    requires Coherent(s)
    requires queue !in s.queues && queue + DlxSuffix !in s.queues && queue + DlxSuffix !in s.exchanges
    requires forall i :: 0 <= i < |s.log| ==> !(s.log[i].Bound? && s.log[i].exchangeName == queue + DlxSuffix)
    requires forall i :: 0 <= i < |events| ==> BindingRoute(events[i]).exchange != queue + DlxSuffix
    ensures var r := SetupSpec(s, events, withDlx, queue);
      && queue in r.queues
      && (withDlx ==>
            && DeadLetterTarget(r.queues[queue]).0 == queue + DlxSuffix
            && queue + DlxSuffix in r.exchanges && r.exchanges[queue + DlxSuffix].kind == Fanout
            && forall key :: BoundQueues(r.log, queue + DlxSuffix, key) == if key == "" then [queue + DlxSuffix] else [])
      && (!withDlx ==> r.queues[queue].arguments == [])
  {
    SetupLog(s, events, withDlx, queue);
    if withDlx {
      var r := SetupSpec(s, events, true, queue);
      LookupFirst(MainArguments(true, queue), 0, "x-dead-letter-exchange");
      assert DeadLetterTarget(r.queues[queue]).0 == queue + DlxSuffix;
      DlxExchange(s, events, queue);
      DlxRouting(s, events, queue);
    }
  }

  /** With DLX, the bindings on `<queue>.dlx` after `setup`, for every key. */
  lemma DlxRouting(s: State, events: seq<string>, queue: string)
    requires Coherent(s)
    requires queue !in s.queues && queue + DlxSuffix !in s.queues && queue + DlxSuffix !in s.exchanges
    requires forall i :: 0 <= i < |s.log| ==> !(s.log[i].Bound? && s.log[i].exchangeName == queue + DlxSuffix)
    requires forall i :: 0 <= i < |events| ==> BindingRoute(events[i]).exchange != queue + DlxSuffix
    ensures forall key :: (BoundQueues(SetupSpec(s, events, true, queue).log, queue + DlxSuffix, key)
                           == if key == "" then [queue + DlxSuffix] else [])
  {
    forall key ensures BoundQueues(SetupSpec(s, events, true, queue).log, queue + DlxSuffix, key)
         == if key == "" then [queue + DlxSuffix] else [] {
      DlxBindings(s, events, queue, key);
    }
  }

  /** The bindings on `<queue>.dlx` after `setup` with DLX, for one key. */
  lemma DlxBindings(s: State, events: seq<string>, queue: string, key: string)
    requires Coherent(s)
    requires queue !in s.queues && queue + DlxSuffix !in s.queues && queue + DlxSuffix !in s.exchanges
    requires forall i :: 0 <= i < |s.log| ==> !(s.log[i].Bound? && s.log[i].exchangeName == queue + DlxSuffix)
    requires forall i :: 0 <= i < |events| ==> BindingRoute(events[i]).exchange != queue + DlxSuffix
    ensures BoundQueues(SetupSpec(s, events, true, queue).log, queue + DlxSuffix, key)
         == if key == "" then [queue + DlxSuffix] else []
  {
    var dlx := queue + DlxSuffix;
    SetupLog(s, events, true, queue);
    ChannelLogUnbound(s, dlx, key);
    SetupOpsRouting(events, queue, key);
    BoundQueuesAppend(ChannelSpec(s).log, SetupOps(events, true, queue), dlx, key);
  }

  /** With DLX, `setup` leaves the fanout exchange `<queue>.dlx` cached. */
  lemma DlxExchange(s: State, events: seq<string>, queue: string)
    requires Coherent(s) && queue + DlxSuffix !in s.exchanges
    ensures var r := SetupSpec(s, events, true, queue);
      queue + DlxSuffix in r.exchanges && r.exchanges[queue + DlxSuffix].kind == Fanout
  {
    var dlx := queue + DlxSuffix;
    var a := DeclareExchangeStep(s, dlx);
    assert a.exchanges[dlx].kind == Fanout;
    var s1 := DlxSpec(s, queue);
    assert s1.exchanges == a.exchanges;
    var s2 := DeclareQueueStep(s1, queue, MainArguments(true, queue));
    assert s2.exchanges == s1.exchanges;
    BindingsKeepExchanges(s2, events, queue);
  }

  /** Bindings cache no exchange. */
  lemma {:induction false} BindingsKeepExchanges(s: State, events: seq<string>, queue: string)
    requires Coherent(s)
    ensures BindingsSpec(s, events, queue).exchanges == s.exchanges
    decreases |events|
  {
    if events != [] {
      BindingsKeepExchanges(s, events[..|events| - 1], queue);
    }
  }

  /** Opening the channel binds nothing. */
  lemma ChannelLogUnbound(s: State, exchange: string, key: string)
    requires Coherent(s)
    requires forall i :: 0 <= i < |s.log| ==> !(s.log[i].Bound? && s.log[i].exchangeName == exchange)
    ensures BoundQueues(ChannelSpec(s).log, exchange, key) == []
  {
    var log := ChannelSpec(s).log;
    forall i | 0 <= i < |log| ensures !(log[i].Bound? && log[i].exchangeName == exchange) {
      if i < |s.log| {
        assert log[i] == s.log[i];
      }
    }
    NoBoundQueues(log, exchange, key);
  }

  class Connection {
    /** Whether `pconnect` succeeds; the broker is outside the model. */
    const reachable: bool
    var channel: Option<nat>
    var exchanges: map<string, ExchangeHandle>
    var queues: map<string, QueueHandle>
    var pending: map<string, seq<BrokerEnvelope>>
    var log: seq<Op>

    function Snapshot(): State
      reads this
    {
      State(channel, exchanges, queues, pending, log)
    }

    predicate Valid()
      reads this
    {
      Coherent(Snapshot())
    }

    /** The connection object is created here but not opened. */
    constructor(reachable: bool, pending: map<string, seq<BrokerEnvelope>>)
      ensures Valid() && this.reachable == reachable
      ensures Snapshot() == State(None, map[], map[], pending, [])
    {
      this.reachable := reachable;
      channel := None;
      exchanges := map[];
      queues := map[];
      this.pending := pending;
      log := [];
    }

    /** `channel()`: opening fails (the AMQPException "Could not connect to
      the AMQP server.") only when there is no channel yet and the broker
      cannot be reached; the failure is not cached, so a later call retries. */
    method Channel() returns (ok: bool, id: nat)
      requires Valid()
      modifies this
      ensures Valid()
      ensures ok == (old(channel).Some? || reachable)
      ensures ok ==> Snapshot() == ChannelSpec(old(Snapshot())) && id == ChannelId
      ensures !ok ==> Snapshot() == old(Snapshot())
    {
      id := ChannelId;
      if channel.Some? {
        return true, channel.value;
      }
      if !reachable {
        return false, id;
      }
      log := log + [Op.Connected];
      channel := Some(ChannelId);
      log := log + [ChannelOpened(ChannelId)];
      ok := true;
    }

    method Exchange(name: string) returns (ok: bool, h: ExchangeHandle)
      requires Valid()
      modifies this
      ensures Valid()
      ensures ok == (old(channel).Some? || reachable)
      ensures ok ==> (Snapshot(), h) == ExchangeStep(old(Snapshot()), name)
      ensures !ok ==> Snapshot() == old(Snapshot())
    {
      ok := true;
      if name !in exchanges {
        var id;
        ok, id := Channel();
        if !ok {
          return ok, ExchangeHandle(name, Fanout, Durable, ChannelId);
        }
        exchanges := exchanges[name := ExchangeHandle(name, Fanout, Durable, id)];
      }
      h := exchanges[name];
    }

    method Queue(name: string, arguments: seq<Entry> := []) returns (ok: bool, h: QueueHandle)
      requires Valid()
      modifies this
      ensures Valid()
      ensures ok == (old(channel).Some? || reachable)
      ensures ok ==> (Snapshot(), h) == QueueStep(old(Snapshot()), name, arguments)
      ensures !ok ==> Snapshot() == old(Snapshot())
    {
      ok := true;
      if name !in queues {
        var id;
        ok, id := Channel();
        if !ok {
          return ok, QueueHandle(name, Durable, arguments, ChannelId);
        }
        queues := queues[name := QueueHandle(name, Durable, arguments, id)];
      }
      h := queues[name];
    }

    /** The broker side of a handle method: one more entry in the log. */
    method Record(op: Op)
      modifies this
      ensures Snapshot() == old(Snapshot()).(log := old(log) + [op])
    {
      log := log + [op];
    }

    /** `publish($body, $exchange, $routingKey, $headers, $delayInMs)`; the
      last two parameters are never read, so they are not modelled. */
    method Publish(body: string, exchange: string, routingKey: string) returns (ok: bool)
      requires Valid()
      modifies this
      ensures Valid()
      ensures ok == (old(channel).Some? || reachable)
      ensures ok ==> Snapshot() == PublishSpec(old(Snapshot()), body, exchange, routingKey)
      ensures !ok ==> Snapshot() == old(Snapshot())
    {
      var h;
      ok, h := Exchange(exchange);
      if ok {
        Record(Published(h, Str(body), routingKey, NoParam, []));
      }
    }

    method DeclareExchange(name: string) returns (ok: bool)
      requires Valid()
      modifies this
      ensures Valid()
      ensures ok == (old(channel).Some? || reachable)
      ensures ok ==> Snapshot() == DeclareExchangeStep(old(Snapshot()), name)
      ensures !ok ==> Snapshot() == old(Snapshot())
    {
      var h;
      ok, h := Exchange(name);
      if ok {
        Record(ExchangeDeclared(h));
      }
    }

    method DeclareQueue(name: string, arguments: seq<Entry>) returns (ok: bool)
      requires Valid()
      modifies this
      ensures Valid()
      ensures ok == (old(channel).Some? || reachable)
      ensures ok ==> Snapshot() == DeclareQueueStep(old(Snapshot()), name, arguments)
      ensures !ok ==> Snapshot() == old(Snapshot())
    {
      var h;
      ok, h := Queue(name, arguments);
      if ok {
        Record(QueueDeclared(h));
      }
    }

    method Bind(name: string, exchange: string, key: string) returns (ok: bool)
      requires Valid()
      modifies this
      ensures Valid()
      ensures ok == (old(channel).Some? || reachable)
      ensures ok ==> Snapshot() == BindStep(old(Snapshot()), name, exchange, key)
      ensures !ok ==> Snapshot() == old(Snapshot())
    {
      var h;
      ok, h := Queue(name);
      if ok {
        Record(Bound(h, exchange, key));
      }
    }

    /** The dead-letter part of `setup`. */
    method SetupDeadLetter(queue: string) returns (ok: bool)
      requires Valid()
      modifies this
      ensures Valid()
      ensures ok == (old(channel).Some? || reachable)
      ensures ok ==> Snapshot() == DlxSpec(old(Snapshot()), queue)
      ensures !ok ==> Snapshot() == old(Snapshot())
    {
      var dlxExchange := queue + DlxSuffix;
      var dlxQueue := queue + DlxSuffix;
      ok := DeclareExchange(dlxExchange);
      if !ok {
        return;
      }
      var done := DeclareQueue(dlxQueue, []);
      done := Bind(dlxQueue, dlxExchange, "");
    }

    /** The `foreach` of `setup`: one binding of the queue per event. Once the
      channel is open, no step can fail. */
    method BindEvents(events: seq<string>, queue: string)
      requires Valid() && channel.Some?
      modifies this
      ensures Valid()
      ensures Snapshot() == BindingsSpec(old(Snapshot()), events, queue)
    {
      ghost var s0 := Snapshot();
      ghost var bound: seq<string> := [];
      var i := 0;
      while i < |events|
        invariant 0 <= i <= |events| && bound == events[..i]
        invariant Valid() && channel.Some?
        invariant Snapshot() == BindingsSpec(s0, bound, queue)
      {
        var route := BindingRoute(events[i]);
        var done := Bind(queue, route.exchange, route.routingKey);
        BindingsSnoc(s0, bound, events[i], queue);
        bound := bound + [events[i]];
        i := i + 1;
      }
      assert bound == events;
    }

    method Setup(events: seq<string>, withDlx: bool, queue: string) returns (ok: bool)
      requires Valid()
      modifies this
      ensures Valid()
      ensures ok == (old(channel).Some? || reachable)
      ensures ok ==> Snapshot() == SetupSpec(old(Snapshot()), events, withDlx, queue)
      ensures !ok ==> Snapshot() == old(Snapshot())
    {
      if withDlx {
        ok := SetupDeadLetter(queue);
        if !ok {
          return;
        }
      }
      ok := DeclareQueue(queue, MainArguments(withDlx, queue));
      if !ok {
        return;
      }
      BindEvents(events, queue);
    }

    method Get(queue: string) returns (ok: bool, r: Result<BrokerEnvelope>)
      requires Valid()
      modifies this
      ensures Valid()
      ensures ok == (old(channel).Some? || reachable)
      ensures ok ==> (Snapshot(), r) == GetSpec(old(Snapshot()), queue)
      ensures !ok ==> Snapshot() == old(Snapshot())
    {
      var h;
      ok, h := Queue(queue);
      r := Err(TypeError);
      if ok {
        Record(Fetched(h));
        var m := Next(pending, queue);
        pending := Rest(pending, queue);
        if m.Some? {
          r := Ok(m.value);
        }
      }
    }

    method Ack(queue: string, deliveryTag: string) returns (ok: bool)
      requires Valid()
      modifies this
      ensures Valid()
      ensures ok == (old(channel).Some? || reachable)
      ensures ok ==> Snapshot() == AckSpec(old(Snapshot()), queue, deliveryTag)
      ensures !ok ==> Snapshot() == old(Snapshot())
    {
      var h;
      ok, h := Queue(queue);
      if ok {
        Record(Acked(h, deliveryTag));
      }
    }

    method Nack(queue: string, deliveryTag: string, flags: int := NoParam) returns (ok: bool)
      requires Valid()
      modifies this
      ensures Valid()
      ensures ok == (old(channel).Some? || reachable)
      ensures ok ==> Snapshot() == NackSpec(old(Snapshot()), queue, deliveryTag, flags)
      ensures !ok ==> Snapshot() == old(Snapshot())
    {
      var h;
      ok, h := Queue(queue);
      if ok {
        Record(Nacked(h, deliveryTag, flags));
      }
    }
  }
}
