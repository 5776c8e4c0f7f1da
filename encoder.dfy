/** The envelope codec the transports use (src/Encoding/Encoder.php): the
    metadata's content type picks the format on the way out, the broker
    message's content type picks it on the way in. */
module Encoding {
  import opened Outcomes
  import opened Php
  import opened Json
  import opened Envelopes
  import opened Messages
  import StructuredEncoding
  import BinaryEncoding

  /** Structured mode is chosen by exact string equality with the CloudEvents
      JSON content type: no case folding, no media-type parameters. */
  predicate IsStructured(contentType: string) {
    contentType == CloudEventsJson
  }

  /** `encode`: structured if and only if the metadata content type is the
      CloudEvents JSON type, binary otherwise. */
  function Encode(p: Platform, e: Envelope): (r: Result<AmqpMessage>)
    ensures IsStructured(e.metadata.dataContentType) ==> r == StructuredEncoding.Encode(p, e)
    ensures !IsStructured(e.metadata.dataContentType) ==> r == BinaryEncoding.Encode(p, e)
  {
    if IsStructured(e.metadata.dataContentType) then StructuredEncoding.Encode(p, e)
    else BinaryEncoding.Encode(p, e)
  }

  /** `decode`: structured if and only if the broker message's content type is
      the CloudEvents JSON type, binary otherwise. */
  function Decode(p: Platform, m: BrokerEnvelope): (r: Result<Envelope>)
    ensures IsStructured(m.contentType) ==> r == StructuredEncoding.Decode(p, m)
    ensures !IsStructured(m.contentType) ==> r == BinaryEncoding.Decode(p, m)
    ensures r.Ok? ==> r.value.headers == map[] && r.value.markers == map[DeliveryTagMarker := Str(m.deliveryTag)]
  {
    if IsStructured(m.contentType) then StructuredEncoding.Decode(p, m)
    else BinaryEncoding.Decode(p, m)
  }

  /** The dispatch is symmetric: a published message carries the CloudEvents
      JSON content type exactly when it was encoded in structured mode, so it
      comes back to the decoder of the mode that wrote it. */
  lemma DispatchSymmetric(p: Platform, e: Envelope, tag: string)
    requires Encode(p, e).Ok?
    ensures Encode(p, e).value.body.Str?
    ensures IsStructured(Delivered(Encode(p, e).value, tag).contentType)
        <==> IsStructured(e.metadata.dataContentType)
  {
    var msg := Encode(p, e).value;
    if IsStructured(e.metadata.dataContentType) {
      LookupFirst(msg.attributes, 0, "content_type");
    } else {
      LookupAbsent(msg.attributes, "content_type");
    }
  }

  /** Through the dispatcher, an envelope survives publishing and delivery
      exactly in structured mode: a structured envelope that the format
      carries comes back unchanged apart from headers and markers, and a
      binary one never decodes. */
  lemma RoundTrip(p: Platform, e: Envelope, tag: string)
    requires Lawful(p)
    requires Encode(p, e).Ok?
    ensures Encode(p, e).value.body.Str?
    ensures IsStructured(e.metadata.dataContentType) && StructuredEncoding.Carried(p, e) ==>
      Decode(p, Delivered(Encode(p, e).value, tag))
        == Ok(e.(headers := map[], markers := map[DeliveryTagMarker := Str(tag)]))
    ensures !IsStructured(e.metadata.dataContentType) ==>
      Decode(p, Delivered(Encode(p, e).value, tag)) == Err(DecodingFailed)
  {
    DispatchSymmetric(p, e, tag);
    if IsStructured(e.metadata.dataContentType) {
      if StructuredEncoding.Carried(p, e) {
        StructuredEncoding.EnvelopeRoundTrip(p, e, tag);
      }
    } else {
      BinaryEncoding.EncodedNeverDecodes(p, e, tag);
    }
  }

  /** A content type that differs only in letter case or by a parameter
      selects binary mode. */
  lemma ExactComparison(p: Platform, e: Envelope)
    requires e.metadata.dataContentType in
      ["Application/CloudEvents+JSON", "application/cloudevents+json; charset=utf-8"]
    ensures Encode(p, e) == BinaryEncoding.Encode(p, e)
  {
  }
}
