/** Structured mode: the whole event is one JSON object on the wire
    (src/Encoding/StructuredEncoder.php). */
module StructuredEncoding {
  import opened Outcomes
  import opened Php
  import opened Json
  import opened Envelopes
  import opened Messages
  import opened Wire

  /** The `data` member `encode` writes: with the CloudEvents JSON content type
      the body text is parsed first (`json_decode($body, true)`, which gives
      null on malformed text); otherwise the body goes in unchanged. A body
      that is an array cannot be passed to `json_decode` (TypeError). */
  function EncodedData(p: Platform, e: Envelope): (r: Result<Value>)
    ensures e.metadata.dataContentType != CloudEventsJson ==> r == Ok(e.body)
    ensures e.metadata.dataContentType == CloudEventsJson && e.body.Str? ==>
      r == Ok(p.decode(e.body.s).GetOr(Null))
    ensures e.metadata.dataContentType == CloudEventsJson && !IsArray(e.body) ==>
      r == Ok(p.decode(BuiltinStringArgument(e.body).value).GetOr(Null))
    ensures r.Err? <==> e.metadata.dataContentType == CloudEventsJson && IsArray(e.body)
  {
    if e.metadata.dataContentType == CloudEventsJson then
      match BuiltinStringArgument(e.body)
      case None => Err(TypeError)
      case Some(text) => Ok(p.decode(text).GetOr(Null))
    else Ok(e.body)
  }

  /** `encode`: the wire object serialised with JSON_THROW_ON_ERROR, published
      with `content_type` set to the metadata's content type. */
  function Encode(p: Platform, e: Envelope): (r: Result<AmqpMessage>)
    ensures EncodedData(p, e).Err? ==> r == Err(TypeError)
    ensures EncodedData(p, e).Ok? ==>
      var wire := WireObject(e.metadata, EncodedData(p, e).value);
      && (p.encode(wire).None? <==> r == Err(EncodingFailed))
      && (r.Ok? ==> r.value == AmqpMessage(Str(p.encode(wire).value), NoParam,
                                           [Entry("content_type", Str(e.metadata.dataContentType))]))
  {
    match EncodedData(p, e)
    case Err(error) => Err(error)
    case Ok(data) =>
      match p.encode(WireObject(e.metadata, data))
      case None => Err(EncodingFailed)
      case Some(text) =>
        Ok(NewMessage(Str(text), NoParam, [Entry("content_type", Str(e.metadata.dataContentType))]))
  }

  predicate IsKnownKey(k: string) {
    k in KnownKeys
  }

  /** The top-level entries that are not CloudEvents attributes, in the order
      they appear (`array_diff(array_keys($bodyDecoded), $this->knownKeys)`). */
  function Extensions(es: seq<Entry>): seq<Entry>
    decreases |es|
  {
    if es == [] then []
    else
      var last := es[|es| - 1];
      Extensions(es[..|es| - 1]) + (if IsKnownKey(last.key) then [] else [last])
  }

  /** Extensions are exactly the entries with an unknown key: every one of
      them comes from the object, no known key is among them, every unknown
      entry is kept, and the encounter order is preserved. */
  lemma {:induction false} ExtensionsExact(es: seq<Entry>)
    ensures forall x :: x in Extensions(es) ==> x in es && !IsKnownKey(x.key)
    ensures forall i :: 0 <= i < |es| && !IsKnownKey(es[i].key) ==> es[i] in Extensions(es)
    decreases |es|
  {
    if es != [] {
      var init := es[..|es| - 1];
      ExtensionsExact(init);
      forall i | 0 <= i < |es| - 1 ensures es[i] == init[i] {}
    }
  }

  /** Splitting the object splits its extensions: the order is kept. */
  lemma {:induction false} ExtensionsAppend(a: seq<Entry>, b: seq<Entry>)
    ensures Extensions(a + b) == Extensions(a) + Extensions(b)
    decreases |b|
  {
    if b == [] {
      assert a + b == a;
    } else {
      var init := b[..|b| - 1];
      assert (a + b)[..|a + b| - 1] == a + init;
      assert (a + b)[|a + b| - 1] == b[|b| - 1];
      ExtensionsAppend(a, init);
    }
  }

  /** The `foreach` that calls `addExtension($name, $bodyDecoded[$name])` for
      every unknown key, in order. */
  method AddExtensions(metadata: Metadata, es: seq<Entry>) returns (r: Metadata)
    ensures r == metadata.(extensions := metadata.extensions + Extensions(es))
  {
    r := metadata;
    var i := 0;
    while i < |es|
      invariant 0 <= i <= |es|
      invariant r == metadata.(extensions := metadata.extensions + Extensions(es[..i]))
    {
      assert es[..i + 1][..i] == es[..i];
      if !IsKnownKey(es[i].key) {
        r := r.(extensions := r.extensions + [es[i]]);
      }
      i := i + 1;
    }
    assert es[..i] == es;
  }

  /** An optional attribute: absent or null reads as "" (`?? ''`). */
  function OptionalAttribute(v: Value): Result<string> {
    if v == Null then Ok("")
    else if v.Str? then Ok(v.s)
    else Err(MetadataRejected)
  }

  /** The stored value `v` of an optional attribute reads as `s`: "" when it
      is absent or null, the string itself otherwise. */
  predicate ReadsAs(v: Value, s: string) {
    if v == Null then s == "" else v == Str(s)
  }

  /** The body of the decoded envelope: with the CloudEvents JSON content type,
      `data` serialised again with JSON_FORCE_OBJECT; otherwise `data` itself. */
  function DecodedBody(p: Platform, contentType: string, data: Value): (r: Result<Value>)
    ensures contentType != CloudEventsJson ==> r == Ok(data)
    ensures contentType == CloudEventsJson ==>
      r == (match p.encode(ForceObject(data))
            case None => Err(DecodingFailed)
            case Some(text) => Ok(Str(text)))
  {
    if contentType == CloudEventsJson then
      match p.encode(ForceObject(data))
      case None => Err(DecodingFailed)
      case Some(text) => Ok(Str(text))
    else Ok(data)
  }

  /** The Metadata `decode` builds once the time has been accepted: the four
      other required attributes must be strings, absent optional ones read as
      "", and the unknown keys are added as extensions in order. A required
      attribute that is absent or not a string, or an optional one that is
      neither null nor a string, is refused by the Metadata class. */
  function DecodedMetadata(decoded: Value, time: string): (r: Result<Metadata>)
    ensures r.Err? ==> r == Err(MetadataRejected)
    ensures r.Ok? <==>
      && Index(decoded, "specversion").Str? && Index(decoded, "type").Str?
      && Index(decoded, "source").Str? && Index(decoded, "id").Str?
      && (Index(decoded, "subject") == Null || Index(decoded, "subject").Str?)
      && (Index(decoded, "dataschema") == Null || Index(decoded, "dataschema").Str?)
      && (Index(decoded, "datacontenttype") == Null || Index(decoded, "datacontenttype").Str?)
    ensures r.Ok? ==>
      && Index(decoded, "specversion") == Str(r.value.specVersion)
      && Index(decoded, "type") == Str(r.value.eventType)
      && Index(decoded, "source") == Str(r.value.source)
      && Index(decoded, "id") == Str(r.value.id)
      && ReadsAs(Index(decoded, "subject"), r.value.subject)
      && ReadsAs(Index(decoded, "dataschema"), r.value.dataSchema)
      && ReadsAs(Index(decoded, "datacontenttype"), r.value.dataContentType)
    ensures r.Ok? ==> r.value.time == time
    ensures r.Ok? ==> r.value.extensions == (if decoded.Dict? then Extensions(decoded.entries) else [])
  {
    var specVersion := Index(decoded, "specversion");
    var eventType := Index(decoded, "type");
    var source := Index(decoded, "source");
    var id := Index(decoded, "id");
    if !(specVersion.Str? && eventType.Str? && source.Str? && id.Str?) then Err(MetadataRejected)
    else
      var subject := OptionalAttribute(Index(decoded, "subject"));
      var dataSchema := OptionalAttribute(Index(decoded, "dataschema"));
      var contentType := OptionalAttribute(Index(decoded, "datacontenttype"));
      if subject.Err? || dataSchema.Err? || contentType.Err? then Err(MetadataRejected)
      else
        Ok(NewMetadata(specVersion.s, eventType.s, source.s, id.s, time)
          .(subject := subject.value, dataSchema := dataSchema.value, dataContentType := contentType.value,
            extensions := if decoded.Dict? then Extensions(decoded.entries) else []))
  }

  /** `decode`. Malformed JSON and a JSON value that is not an array fail
      decoding. The time goes to `createFromFormat`, which takes a string: a
      missing one arrives as "", other scalars are converted, and an array
      raises a TypeError, which is not an \Exception and escapes the
      decoder's catch. A time that is not RFC 3339 fails decoding; a required
      attribute that is not a string reaches the Metadata constructor
      (MetadataRejected). */
  function Decode(p: Platform, m: BrokerEnvelope): (r: Result<Envelope>)
    ensures p.decode(m.body).None? ==> r == Err(DecodingFailed)
    ensures p.decode(m.body).Some? && !IsArray(p.decode(m.body).value) ==> r == Err(DecodingFailed)
    ensures p.decode(m.body).Some? && IsArray(p.decode(m.body).value) ==>
      var time := Index(p.decode(m.body).value, "time");
      && (IsArray(time) ==> r == Err(TypeError))
      && (BuiltinStringArgument(time).Some? && !p.isRfc3339(BuiltinStringArgument(time).value) ==> r == Err(DecodingFailed))
      && (BuiltinStringArgument(time).Some? && p.isRfc3339(BuiltinStringArgument(time).value) && !time.Str? ==>
            r == Err(MetadataRejected))
      && (r.Ok? ==> time.Str? && p.isRfc3339(time.s))
    ensures p.decode(m.body).Some? && IsArray(p.decode(m.body).value) ==>
      var decoded := p.decode(m.body).value;
      var time := Index(decoded, "time");
      time.Str? && p.isRfc3339(time.s) ==>
        var metadata := DecodedMetadata(decoded, time.s);
        && (r.Ok? <==> metadata.Ok? && DecodedBody(p, metadata.value.dataContentType, Index(decoded, "data")).Ok?)
        && (metadata.Err? ==> r == Err(MetadataRejected))
        && (metadata.Ok? && DecodedBody(p, metadata.value.dataContentType, Index(decoded, "data")).Err? ==>
              r == Err(DecodingFailed))
    ensures r.Ok? ==>
      && p.decode(m.body).Some? && IsArray(p.decode(m.body).value)
      && var decoded := p.decode(m.body).value;
      && Index(decoded, "time").Str?
      && DecodedMetadata(decoded, Index(decoded, "time").s) == Ok(r.value.metadata)
      && DecodedBody(p, r.value.metadata.dataContentType, Index(decoded, "data")) == Ok(r.value.body)
    ensures r.Ok? ==> r.value.markers == map[DeliveryTagMarker := Str(m.deliveryTag)] && r.value.headers == map[]
  {
    match p.decode(m.body)
    case None => Err(DecodingFailed)
    case Some(decoded) =>
      if !IsArray(decoded) then Err(DecodingFailed)
      else
        var time := Index(decoded, "time");
        match BuiltinStringArgument(time)
        case None => Err(TypeError)
        case Some(text) =>
          if !p.isRfc3339(text) then Err(DecodingFailed)
          else if !time.Str? then Err(MetadataRejected)
          else
            match DecodedMetadata(decoded, time.s)
            case Err(error) => Err(error)
            case Ok(metadata) =>
              match DecodedBody(p, metadata.dataContentType, Index(decoded, "data"))
              case Err(error) => Err(error)
              case Ok(body) => Ok(Envelope(metadata, body, map[], map[DeliveryTagMarker := Str(m.deliveryTag)]))
  }

  /** Decode of a JSON value whose parts are known: the result is fixed by the
      metadata and the body these parts give. */
  lemma DecodeOf(p: Platform, m: BrokerEnvelope, decoded: Value, md: Metadata, body: Value)
    requires p.decode(m.body) == Some(decoded) && decoded.Dict?
    requires Index(decoded, "time") == Str(md.time) && p.isRfc3339(md.time)
    requires DecodedMetadata(decoded, md.time) == Ok(md)
    requires DecodedBody(p, md.dataContentType, Index(decoded, "data")) == Ok(body)
    ensures Decode(p, m) == Ok(Envelope(md, body, map[], map[DeliveryTagMarker := Str(m.deliveryTag)]))
  {
  }

  /** The metadata read back from a written object: every written attribute,
      with subject, data schema and extensions empty. */
  lemma DecodedWireMetadata(md: Metadata, data: Value)
    ensures DecodedMetadata(WireObject(md, data), md.time)
         == Ok(md.(subject := "", dataSchema := "", extensions := []))
  {
    var wire := WireObject(md, data);
    WireObjectFields(md, data);
    WrittenKeysKnown(wire.entries);
    NoExtensions(wire.entries);
    assert OptionalAttribute(Index(wire, "subject")) == Ok("");
    assert OptionalAttribute(Index(wire, "dataschema")) == Ok("");
    assert OptionalAttribute(Index(wire, "datacontenttype")) == Ok(md.dataContentType);
  }

  /** Keys outside the attribute set that follow a written object become its
      extensions, in the order they follow; the attributes are unaffected. */
  lemma DecodedWireExtensions(md: Metadata, data: Value, ext: seq<Entry>)
    requires forall i :: 0 <= i < |ext| ==> !IsKnownKey(ext[i].key)
    ensures DecodedMetadata(Dict(WireObject(md, data).entries + ext), md.time)
         == Ok(md.(subject := "", dataSchema := "", extensions := ext))
  {
    var all := Dict(WireObject(md, data).entries + ext);
    ExtendedWireFields(md, data, ext);
    assert OptionalAttribute(Index(all, "subject")) == Ok("");
    assert OptionalAttribute(Index(all, "dataschema")) == Ok("");
    assert OptionalAttribute(Index(all, "datacontenttype")) == Ok(md.dataContentType);
    var r := DecodedMetadata(all, md.time);
    assert r.Ok?;
    assert r.value == md.(subject := "", dataSchema := "", extensions := ext);
  }

  /** What a written object followed by extensions holds under each key. */
  lemma ExtendedWireFields(md: Metadata, data: Value, ext: seq<Entry>)
    requires forall i :: 0 <= i < |ext| ==> !IsKnownKey(ext[i].key)
    ensures var all := Dict(WireObject(md, data).entries + ext);
      && Index(all, "specversion") == Str(md.specVersion)
      && Index(all, "type") == Str(md.eventType)
      && Index(all, "source") == Str(md.source)
      && Index(all, "id") == Str(md.id)
      && Index(all, "subject") == Null
      && Index(all, "dataschema") == Null
      && Index(all, "datacontenttype") == Str(md.dataContentType)
      && Index(all, "time") == Str(md.time)
      && Index(all, "data") == data
      && Extensions(all.entries) == ext
  {
    var wire := WireObject(md, data);
    WireObjectFields(md, data);
    IndexBeforeExtensions(wire, ext, "specversion");
    IndexBeforeExtensions(wire, ext, "type");
    IndexBeforeExtensions(wire, ext, "source");
    IndexBeforeExtensions(wire, ext, "id");
    IndexBeforeExtensions(wire, ext, "subject");
    IndexBeforeExtensions(wire, ext, "dataschema");
    IndexBeforeExtensions(wire, ext, "datacontenttype");
    IndexBeforeExtensions(wire, ext, "time");
    IndexBeforeExtensions(wire, ext, "data");
    WrittenKeysKnown(wire.entries);
    NoExtensions(wire.entries);
    ExtensionsAppend(wire.entries, ext);
    ExtensionsOfUnknown(ext);
  }

  /** Extensions appended to an object do not change what its attributes read. */
  lemma IndexBeforeExtensions(v: Value, ext: seq<Entry>, k: string)
    requires v.Dict? && IsKnownKey(k)
    requires forall i :: 0 <= i < |ext| ==> !IsKnownKey(ext[i].key)
    ensures Index(Dict(v.entries + ext), k) == Index(v, k)
  {
    LookupAppend(v.entries, ext, k);
    LookupAbsent(ext, k);
  }

  /** Entries with unknown keys are all extensions, in order. */
  lemma {:induction false} ExtensionsOfUnknown(es: seq<Entry>)
    requires forall i :: 0 <= i < |es| ==> !IsKnownKey(es[i].key)
    ensures Extensions(es) == es
    decreases |es|
  {
    if es != [] {
      var init := es[..|es| - 1];
      assert forall i :: 0 <= i < |init| ==> init[i] == es[i];
      ExtensionsOfUnknown(init);
      assert !IsKnownKey(es[|es| - 1].key);
      assert init + [es[|es| - 1]] == es;
    }
  }

  lemma WrittenKeysKnown(es: seq<Entry>)
    requires Keys(es) == WrittenKeys
    ensures forall i :: 0 <= i < |es| ==> IsKnownKey(es[i].key)
  {
    forall i | 0 <= i < |es| ensures IsKnownKey(es[i].key) {
      assert es[i].key == Keys(es)[i];
      assert WrittenKeys[i] in KnownKeys;
    }
  }

  /** An object whose every key is an attribute has no extensions; this is
      the case for every object `encode` writes. */
  lemma NoExtensions(es: seq<Entry>)
    requires forall i :: 0 <= i < |es| ==> IsKnownKey(es[i].key)
    ensures Extensions(es) == []
  {
    ExtensionsExact(es);
    if Extensions(es) != [] {
      assert Extensions(es)[0] in Extensions(es);
    }
  }

  /** The envelopes structured mode carries without loss: subject, data schema
      and extensions are empty (they are never written) and the time is
      RFC 3339. With the CloudEvents JSON content type the body is JSON text
      that the library writes back identically under FORCE_OBJECT (text
      holding a list is not: the list comes back as an object); with any other content type
      the body is a value JSON can carry unchanged (canonical form). */
  predicate Carried(p: Platform, e: Envelope) {
    && e.metadata.subject == "" && e.metadata.dataSchema == "" && e.metadata.extensions == []
    && p.isRfc3339(e.metadata.time)
    && (if e.metadata.dataContentType == CloudEventsJson then
          && e.body.Str?
          && p.decode(e.body.s).Some?
          && p.encode(ForceObject(p.decode(e.body.s).value)) == Some(e.body.s)
        else Canonical(e.body))
  }

  /** A written object is in canonical form exactly when its data is: its
      keys are seven distinct attribute names. */
  lemma WireCanonical(md: Metadata, data: Value)
    ensures Canonical(WireObject(md, data)) <==> Canonical(data)
  {
    var es := WireObject(md, data).entries;
    assert es[1].value == data;
    assert es[0].key == "source" != NatToString(0);
    forall i, j | 0 <= i < j < |es| ensures es[i].key != es[j].key {
      assert es[i].key == WrittenKeys[i] && es[j].key == WrittenKeys[j];
    }
  }

  /** Envelope to wire and back: decoding what `encode` published gives the
      envelope again, with the broker's delivery tag as its only marker and no
      headers. */
  lemma EnvelopeRoundTrip(p: Platform, e: Envelope, tag: string)
    requires Lawful(p)
    requires Carried(p, e)
    requires Encode(p, e).Ok?
    ensures Decode(p, Delivered(Encode(p, e).value, tag))
         == Ok(e.(headers := map[], markers := map[DeliveryTagMarker := Str(tag)]))
  {
    var msg := Encode(p, e).value;
    var data := EncodedData(p, e).value;
    var wire := WireObject(e.metadata, data);
    var m := Delivered(msg, tag);
    assert Canonical(data);
    WireCanonical(e.metadata, data);
    assert m.body == p.encode(wire).value;
    assert p.decode(m.body) == Some(wire);
    WireObjectFields(e.metadata, data);
    DecodedWireMetadata(e.metadata, data);
    assert e.metadata.(subject := "", dataSchema := "", extensions := []) == e.metadata;
    assert DecodedBody(p, e.metadata.dataContentType, data) == Ok(e.body);
    DecodeOf(p, m, wire, e.metadata, e.body);
  }

  /** Wire to envelope and back: a wire object (with an RFC 3339 time, and
      list-free data that the library can write in CloudEvents JSON mode)
      decodes to the metadata it came from, minus the attributes that are not
      written, and encoding that envelope publishes the same JSON object again
      with `content_type` set to its content type. */
  lemma WireRoundTrip(p: Platform, m: BrokerEnvelope, md: Metadata, data: Value)
    requires Lawful(p)
    requires p.decode(m.body) == Some(WireObject(md, data))
    requires p.isRfc3339(md.time)
    requires md.dataContentType == CloudEventsJson ==> ListFree(data) && p.encode(data).Some?
    ensures Decode(p, m).Ok?
    ensures var e := Decode(p, m).value;
      && e.metadata == md.(subject := "", dataSchema := "", extensions := [])
      && (Encode(p, e).Ok? <==> p.encode(WireObject(md, data)).Some?)
      && (Encode(p, e).Ok? ==>
            && p.decode(Encode(p, e).value.body.s) == Some(WireObject(md, data))
            && Encode(p, e).value.attributes == [Entry("content_type", Str(md.dataContentType))])
  {
    var wire := WireObject(md, data);
    var md' := md.(subject := "", dataSchema := "", extensions := []);
    WireCanonical(md, data);
    WireObjectFields(md, data);
    DecodedWireMetadata(md, data);
    var body := if md.dataContentType == CloudEventsJson then Str(p.encode(data).value) else data;
    if md.dataContentType == CloudEventsJson {
      ForceObjectKeepsListFree(data);
      assert p.decode(body.s) == Some(data);
    }
    DecodeOf(p, m, wire, md', body);
    var e := Decode(p, m).value;
    assert EncodedData(p, e) == Ok(data);
    assert WireObject(e.metadata, data) == wire;
  }

  /** The encoding example of the test suite: the JSON object written for the
      BookCreated event holds its seven keys in writing order, with the body
      text parsed into `data`. */
  lemma EncodeBookCreated(p: Platform, written: string)
    requires p.decode("{\"id\":123}") == Some(Dict([Entry("id", Int(123))]))
    requires p.encode(Dict([
      Entry("source", Str("protoevent-php")),
      Entry("data", Dict([Entry("id", Int(123))])),
      Entry("datacontenttype", Str(CloudEventsJson)),
      Entry("time", Str("2023-03-22T12:44:07+00:00")),
      Entry("specversion", Str("1.0")),
      Entry("id", Str("859a8ad5-ad3f-475e-b2c2-38e568830631")),
      Entry("type", Str("example.books.v1.BookCreated"))])) == Some(written)
    ensures var md := NewMetadata("1.0", "example.books.v1.BookCreated", "protoevent-php",
                                  "859a8ad5-ad3f-475e-b2c2-38e568830631", "2023-03-22T12:44:07+00:00")
                        .(dataContentType := CloudEventsJson);
      Encode(p, Envelope(md, Str("{\"id\":123}"), map[], map[]))
        == Ok(AmqpMessage(Str(written), NoParam, [Entry("content_type", Str(CloudEventsJson))]))
  {
  }

  /** The decoding example of the test suite: an unknown top-level key becomes
      the only extension, the known ones become attributes, and the `data`
      object is written back as the body text. */
  lemma DecodeBookCreated(p: Platform, m: BrokerEnvelope)
    requires p.decode(m.body) == Some(Dict([
      Entry("source", Str("protoevent-php")),
      Entry("data", Dict([Entry("id", Int(123))])),
      Entry("datacontenttype", Str(CloudEventsJson)),
      Entry("time", Str("2023-03-22T12:44:07+00:00")),
      Entry("specversion", Str("1.0")),
      Entry("id", Str("859a8ad5-ad3f-475e-b2c2-38e568830631")),
      Entry("type", Str("example.books.v1.BookCreated")),
      Entry("someextension", Str("extension_value"))]))
    requires p.isRfc3339("2023-03-22T12:44:07+00:00")
    requires p.encode(Dict([Entry("id", Int(123))])) == Some("{\"id\":123}")
    ensures var md := NewMetadata("1.0", "example.books.v1.BookCreated", "protoevent-php",
                                  "859a8ad5-ad3f-475e-b2c2-38e568830631", "2023-03-22T12:44:07+00:00")
                        .(dataContentType := CloudEventsJson,
                          extensions := [Entry("someextension", Str("extension_value"))]);
      Decode(p, m) == Ok(Envelope(md, Str("{\"id\":123}"), map[], map[DeliveryTagMarker := Str(m.deliveryTag)]))
  {
    var data := Dict([Entry("id", Int(123))]);
    var md := NewMetadata("1.0", "example.books.v1.BookCreated", "protoevent-php",
                          "859a8ad5-ad3f-475e-b2c2-38e568830631", "2023-03-22T12:44:07+00:00")
                .(dataContentType := CloudEventsJson);
    var ext := [Entry("someextension", Str("extension_value"))];
    assert !IsKnownKey("someextension");
    assert ListFree(data);
    assert WireObject(md, data).entries + ext == [
      Entry("source", Str("protoevent-php")),
      Entry("data", data),
      Entry("datacontenttype", Str(CloudEventsJson)),
      Entry("time", Str("2023-03-22T12:44:07+00:00")),
      Entry("specversion", Str("1.0")),
      Entry("id", Str("859a8ad5-ad3f-475e-b2c2-38e568830631")),
      Entry("type", Str("example.books.v1.BookCreated")),
      Entry("someextension", Str("extension_value"))];
    DecodeExtended(p, m, md, data, ext, "{\"id\":123}");
  }

  /** Decoding an object written by this code and followed by extensions:
      the written attributes come back, the extensions follow in order, and
      with the CloudEvents JSON content type a list-free `data` comes back as
      its JSON text. */
  lemma DecodeExtended(p: Platform, m: BrokerEnvelope, md: Metadata, data: Value, ext: seq<Entry>, text: string)
    requires md.subject == "" && md.dataSchema == "" && md.extensions == [] && md.dataContentType == CloudEventsJson
    requires forall i :: 0 <= i < |ext| ==> !IsKnownKey(ext[i].key)
    requires p.decode(m.body) == Some(Dict(WireObject(md, data).entries + ext))
    requires p.isRfc3339(md.time) && ListFree(data) && p.encode(data) == Some(text)
    ensures Decode(p, m) == Ok(Envelope(md.(extensions := ext), Str(text), map[], map[DeliveryTagMarker := Str(m.deliveryTag)]))
  {
    var w := WireObject(md, data).entries + ext;
    DecodedWireExtensions(md, data, ext);
    ExtendedWireFields(md, data, ext);
    assert md.(subject := "", dataSchema := "", extensions := ext) == md.(extensions := ext);
    ForceObjectKeepsListFree(data);
    DecodeOf(p, m, Dict(w), md.(extensions := ext), Str(text));
  }
}
