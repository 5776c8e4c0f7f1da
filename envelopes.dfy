/** The in-memory event: CloudEvents-style metadata, an opaque body and the
    transport's headers and markers. Metadata and Envelope belong to the event
    bus package, which is not part of this model; only the fields the
    transport reads or writes are kept. */
module Envelopes {
  import opened Php

  /** The content type that selects structured encoding. */
  const CloudEventsJson: string := "application/cloudevents+json"

  /** Marker under which the receiving transport keeps the broker delivery tag. */
  const DeliveryTagMarker: string := "amqp_delivery_tag"

  /** `eventType` is the CloudEvents `type` attribute (`type` is a Dafny keyword).
      Extensions keep their insertion order. */
  datatype Metadata = Metadata(
    specVersion: string,
    eventType: string,
    source: string,
    id: string,
    time: string,
    subject: string,
    dataSchema: string,
    dataContentType: string,
    extensions: seq<Entry>)

  /** `new Metadata(specVersion, type, source, id, time)`: the optional
      attributes start empty and there are no extensions, which is what the
      equality assertions of the tests rely on. */
  function NewMetadata(specVersion: string, eventType: string, source: string, id: string, time: string): (m: Metadata)
    ensures m.subject == "" && m.dataSchema == "" && m.dataContentType == "" && m.extensions == []
    ensures (m.specVersion, m.eventType, m.source, m.id, m.time) == (specVersion, eventType, source, id, time)
  {
    Metadata(specVersion, eventType, source, id, time, "", "", "", [])
  }

  datatype Envelope = Envelope(
    metadata: Metadata,
    body: Value,
    headers: map<string, Value>,
    markers: map<string, Value>)

  /** `getMarker($name)`: null when the marker was never attached. */
  function Marker(e: Envelope, name: string): Value {
    if name in e.markers then e.markers[name] else Null
  }

  /** The delivery tag the receiving transport attached, if any. */
  function DeliveryTag(e: Envelope): Value {
    Marker(e, DeliveryTagMarker)
  }
}
