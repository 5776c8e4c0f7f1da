/** The receiver options of the parking-lot transport
    (src/ParkingLot/AMQPTransport.php): a fixed set of defaults that the
    caller's options replace key by key. */
module ReceiverOptions {
  import opened Outcomes
  import opened Php

  const DefaultPrefetchCount: int := 3
  const DefaultMaxRetries: int := 3
  const DefaultMinRetryBackoff: int := 15000

  /** The options the transport and its connection read. `setupTopology` and
      `setupBindings` stay PHP values because the connection tests them with
      `=== true`. */
  datatype Options = Options(
    queue: string,
    setupTopology: Value,
    setupBindings: Value,
    prefetchCount: int,
    maxRetries: int,
    minRetryBackoff: int)

  const Defaults: Options := Options("", Bool(false), Bool(false), DefaultPrefetchCount, DefaultMaxRetries, DefaultMinRetryBackoff)

  /** The caller's options: a key the caller does not give is None. */
  datatype Overrides = Overrides(
    queue: Option<string>,
    setupTopology: Option<Value>,
    setupBindings: Option<Value>,
    prefetchCount: Option<int>,
    maxRetries: Option<int>,
    minRetryBackoff: Option<int>)

  const NoOverrides: Overrides := Overrides(None, None, None, None, None, None)

  /** `array_replace_recursive($defaults, $options)`: every default is a
      scalar, so a given key replaces the default outright and a missing key
      keeps it. */
  function Configure(o: Overrides): (r: Options)
    ensures o.queue.Some? ==> r.queue == o.queue.value
    ensures o.queue.None? ==> r.queue == Defaults.queue
    ensures o.setupTopology.Some? ==> r.setupTopology == o.setupTopology.value
    ensures o.setupTopology.None? ==> r.setupTopology == Defaults.setupTopology
    ensures o.setupBindings.Some? ==> r.setupBindings == o.setupBindings.value
    ensures o.setupBindings.None? ==> r.setupBindings == Defaults.setupBindings
    ensures o.prefetchCount.Some? ==> r.prefetchCount == o.prefetchCount.value
    ensures o.prefetchCount.None? ==> r.prefetchCount == Defaults.prefetchCount
    ensures o.maxRetries.Some? ==> r.maxRetries == o.maxRetries.value
    ensures o.maxRetries.None? ==> r.maxRetries == Defaults.maxRetries
    ensures o.minRetryBackoff.Some? ==> r.minRetryBackoff == o.minRetryBackoff.value
    ensures o.minRetryBackoff.None? ==> r.minRetryBackoff == Defaults.minRetryBackoff
  {
    Options(
      o.queue.GetOr(Defaults.queue),
      o.setupTopology.GetOr(Defaults.setupTopology),
      o.setupBindings.GetOr(Defaults.setupBindings),
      o.prefetchCount.GetOr(Defaults.prefetchCount),
      o.maxRetries.GetOr(Defaults.maxRetries),
      o.minRetryBackoff.GetOr(Defaults.minRetryBackoff))
  }

  /** With no options given the transport works on the unnamed queue, sets
      nothing up, and allows three retries with a 15 second back-off. */
  lemma DefaultOptions()
    ensures Configure(NoOverrides)
         == Options("", Bool(false), Bool(false), 3, 3, 15000)
  {
  }
}
