/** Binary mode: the attributes travel as `cloudEvents:*` message headers and
    the body is the JSON wire object (src/Encoding/BinaryEncoder.php). */
module BinaryEncoding {
  import opened Outcomes
  import opened Php
  import opened Json
  import opened Envelopes
  import opened Messages
  import opened Wire

  const SpecVersionHeader: string := "cloudEvents:specversion"
  const IdHeader: string := "cloudEvents:id"
  const SourceHeader: string := "cloudEvents:source"
  const SubjectHeader: string := "cloudEvents:subject"
  const DataSchemaHeader: string := "cloudEvents:dataschema"
  const TimeHeader: string := "cloudEvents:time"

  /** An optional header: present exactly when the attribute is not
      PHP-empty ("" and "0" are both left out). */
  function OptionalHeader(name: string, value: string): (h: seq<Entry>)
    ensures EmptyString(value) ==> h == []
    ensures !EmptyString(value) ==> h == [Entry(name, Str(value))]
  {
    if EmptyString(value) then [] else [Entry(name, Str(value))]
  }

  /** The headers table that `encode` builds: specversion, id and source
      always, then subject, data schema and time when non-empty. */
  function Headers(m: Metadata): (h: seq<Entry>)
    ensures |h| >= 3
    ensures h[0] == Entry(SpecVersionHeader, Str(m.specVersion))
    ensures h[1] == Entry(IdHeader, Str(m.id))
    ensures h[2] == Entry(SourceHeader, Str(m.source))
    ensures h[3..] == OptionalHeader(SubjectHeader, m.subject)
                    + OptionalHeader(DataSchemaHeader, m.dataSchema)
                    + OptionalHeader(TimeHeader, m.time)
  {
    [Entry(SpecVersionHeader, Str(m.specVersion)),
     Entry(IdHeader, Str(m.id)),
     Entry(SourceHeader, Str(m.source))]
    + OptionalHeader(SubjectHeader, m.subject)
    + OptionalHeader(DataSchemaHeader, m.dataSchema)
    + OptionalHeader(TimeHeader, m.time)
  }

  /** The six header names binary mode uses. */
  predicate IsCloudEventsHeader(name: string) {
    name in [SpecVersionHeader, IdHeader, SourceHeader, SubjectHeader, DataSchemaHeader, TimeHeader]
  }

  /** Every header `encode` writes is one of the six. */
  lemma HeadersAreCloudEvents(m: Metadata)
    ensures forall i :: 0 <= i < |Headers(m)| ==> IsCloudEventsHeader(Headers(m)[i].key)
  {
    var h := Headers(m);
    forall i | 3 <= i < |h| ensures IsCloudEventsHeader(h[i].key) {
      assert h[i] in h[3..];
    }
  }

  /** The three required headers carry the metadata values, and an optional
      one is present if and only if its attribute is not PHP-empty. */
  lemma HeadersContents(m: Metadata)
    ensures Lookup(Headers(m), SpecVersionHeader) == Some(Str(m.specVersion))
    ensures Lookup(Headers(m), IdHeader) == Some(Str(m.id))
    ensures Lookup(Headers(m), SourceHeader) == Some(Str(m.source))
    ensures Lookup(Headers(m), SubjectHeader) == if EmptyString(m.subject) then None else Some(Str(m.subject))
    ensures Lookup(Headers(m), DataSchemaHeader) == if EmptyString(m.dataSchema) then None else Some(Str(m.dataSchema))
    ensures Lookup(Headers(m), TimeHeader) == if EmptyString(m.time) then None else Some(Str(m.time))
  {
    HeadersLookup(m, SpecVersionHeader);
    HeadersLookup(m, IdHeader);
    HeadersLookup(m, SourceHeader);
    HeadersLookup(m, SubjectHeader);
    HeadersLookup(m, DataSchemaHeader);
    HeadersLookup(m, TimeHeader);
  }

  /** A lookup in the headers table, key by key: the required headers in
      front, then the three optional parts. */
  lemma HeadersLookup(m: Metadata, k: string)
    ensures Lookup(Headers(m), k) ==
      if k == SpecVersionHeader then Some(Str(m.specVersion))
      else if k == IdHeader then Some(Str(m.id))
      else if k == SourceHeader then Some(Str(m.source))
      else OptionalHeadersLookup(m, k)
  {
    var a := OptionalHeader(SubjectHeader, m.subject);
    var b := OptionalHeader(DataSchemaHeader, m.dataSchema);
    var c := OptionalHeader(TimeHeader, m.time);
    var tail := a + b + c;
    var e0 := Entry(SpecVersionHeader, Str(m.specVersion));
    var e1 := Entry(IdHeader, Str(m.id));
    var e2 := Entry(SourceHeader, Str(m.source));
    assert Headers(m) == [e0] + ([e1] + ([e2] + tail));
    LookupCons(e0, [e1] + ([e2] + tail), k);
    LookupCons(e1, [e2] + tail, k);
    LookupCons(e2, tail, k);
    LookupAppend(a + b, c, k);
    LookupAppend(a, b, k);
    OptionalLookup(SubjectHeader, m.subject, k);
    OptionalLookup(DataSchemaHeader, m.dataSchema, k);
    OptionalLookup(TimeHeader, m.time, k);
  }

  /** What the optional part of the headers table answers for `k`. */
  function OptionalHeadersLookup(m: Metadata, k: string): Option<Value> {
    if k == SubjectHeader && !EmptyString(m.subject) then Some(Str(m.subject))
    else if k == DataSchemaHeader && !EmptyString(m.dataSchema) then Some(Str(m.dataSchema))
    else if k == TimeHeader && !EmptyString(m.time) then Some(Str(m.time))
    else None
  }

  /** Lookup in an optional header. */
  lemma OptionalLookup(name: string, value: string, k: string)
    ensures Lookup(OptionalHeader(name, value), k) ==
      if k == name && !EmptyString(value) then Some(Str(value)) else None
  {
  }

  /** `encode`: the wire object with the body as `data`, serialised with
      JSON_THROW_ON_ERROR; a serialisation failure is EncodingFailed. The
      message carries only the `headers` attribute. */
  function Encode(p: Platform, e: Envelope): (r: Result<AmqpMessage>)
    ensures p.encode(WireObject(e.metadata, e.body)).None? <==> r == Err(EncodingFailed)
    ensures r.Ok? ==>
      && r.value.body == Str(p.encode(WireObject(e.metadata, e.body)).value)
      && r.value.flags == NoParam
      && r.value.attributes == [Entry("headers", Dict(Headers(e.metadata)))]
  {
    match p.encode(WireObject(e.metadata, e.body))
    case None => Err(EncodingFailed)
    case Some(text) => Ok(NewMessage(Str(text), NoParam, [Entry("headers", Dict(Headers(e.metadata)))]))
  }

  /** The checks `decode` makes, in the order it makes them: a non-empty
      `type` property, a well-formed time header, then the other five headers. */
  predicate Decodable(p: Platform, m: BrokerEnvelope) {
    && m.eventType != ""
    && Header(m, TimeHeader).Str? && p.isRfc3339(Header(m, TimeHeader).s)
    && Header(m, SpecVersionHeader).Str?
    && Header(m, SourceHeader).Str?
    && Header(m, IdHeader).Str?
    && Header(m, SubjectHeader).Str?
    && Header(m, DataSchemaHeader).Str?
  }

  /** `decode`. A missing header reads as `false`. The time header goes to
      `createFromFormat`, which takes a string: `false` arrives as "", other
      scalars are converted, an array raises a TypeError the decoder does not
      catch. A missing required header fails decoding; a header that is
      present but not a string reaches the Metadata constructor or a setter
      (MetadataRejected). On success the type comes from the broker `type`
      property, the content type from `content_type`, the body is the raw
      broker body and the delivery tag is the only marker. */
  function Decode(p: Platform, m: BrokerEnvelope): (r: Result<Envelope>)
    ensures m.eventType == "" ==> r == Err(DecodingFailed)
    ensures r.Ok? <==> Decodable(p, m)
    ensures m.eventType != "" && IsArray(Header(m, TimeHeader)) ==> r == Err(TypeError)
    ensures Header(m, TimeHeader).Str? && !p.isRfc3339(Header(m, TimeHeader).s) ==> r == Err(DecodingFailed)
    ensures TimeHeader !in m.headers && !p.isRfc3339("") ==> r == Err(DecodingFailed)
    ensures var time := BuiltinStringArgument(Header(m, TimeHeader));
      time.Some? && p.isRfc3339(time.value)
      && (SpecVersionHeader !in m.headers || SourceHeader !in m.headers || IdHeader !in m.headers)
      ==> r == Err(DecodingFailed)
    ensures SubjectHeader !in m.headers || DataSchemaHeader !in m.headers ==> r.Err?
    ensures r.Ok? ==>
      && r.value.metadata == Metadata(
           Header(m, SpecVersionHeader).s, m.eventType, Header(m, SourceHeader).s, Header(m, IdHeader).s,
           Header(m, TimeHeader).s, Header(m, SubjectHeader).s, Header(m, DataSchemaHeader).s, m.contentType, [])
      && r.value.body == Str(m.body)
      && r.value.headers == map[]
      && r.value.markers == map[DeliveryTagMarker := Str(m.deliveryTag)]
  {
    var specVersion := Header(m, SpecVersionHeader);
    var id := Header(m, IdHeader);
    var source := Header(m, SourceHeader);
    var subject := Header(m, SubjectHeader);
    var dataSchema := Header(m, DataSchemaHeader);
    var time := Header(m, TimeHeader);
    if m.eventType == "" then Err(DecodingFailed)
    else
      match BuiltinStringArgument(time)
      case None => Err(TypeError)
      case Some(text) =>
        if !p.isRfc3339(text) then Err(DecodingFailed)
        else if specVersion == Bool(false) || source == Bool(false) || id == Bool(false) then Err(DecodingFailed)
        else if !(specVersion.Str? && source.Str? && id.Str? && time.Str?) then Err(MetadataRejected)
        else if subject == Bool(false) then Err(DecodingFailed)
        else if !subject.Str? then Err(MetadataRejected)
        else if dataSchema == Bool(false) then Err(DecodingFailed)
        else if !dataSchema.Str? then Err(MetadataRejected)
        else
          var metadata := NewMetadata(specVersion.s, m.eventType, source.s, id.s, time.s)
            .(dataContentType := m.contentType, subject := subject.s, dataSchema := dataSchema.s);
          Ok(Envelope(metadata, Str(m.body), map[], map[DeliveryTagMarker := Str(m.deliveryTag)]))
  }

  /** Binary messages this code encodes can never be decoded by it: `encode`
      sets no `type` property, and `decode` rejects a message without one. */
  lemma EncodedNeverDecodes(p: Platform, e: Envelope, tag: string)
    requires Encode(p, e).Ok?
    ensures Decode(p, Delivered(Encode(p, e).value, tag)) == Err(DecodingFailed)
  {
    var msg := Encode(p, e).value;
    LookupAbsent(msg.attributes, "type");
  }

  /** Even with a `type` property added, a message whose subject or data
      schema was left out at encode time (an empty attribute) fails to decode. */
  lemma OmittedOptionalHeaderNeverDecodes(p: Platform, e: Envelope, m: BrokerEnvelope)
    requires m.headers == AsMap(Headers(e.metadata))
    requires EmptyString(e.metadata.subject) || EmptyString(e.metadata.dataSchema)
    ensures Decode(p, m).Err?
  {
    HeadersContents(e.metadata);
    if EmptyString(e.metadata.subject) {
      assert SubjectHeader !in m.headers;
    } else {
      assert DataSchemaHeader !in m.headers;
    }
  }
}
