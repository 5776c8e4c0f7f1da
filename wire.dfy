/** The JSON object both encoders write: the CloudEvents attributes and the
    data, always the same seven keys in the same order. */
module Wire {
  import opened Outcomes
  import opened Php
  import opened Envelopes

  /** Top-level keys of the structured form that are attributes, not
      extensions (the source lists "datacontenttype" twice). */
  const KnownKeys: seq<string> :=
    ["source", "data", "datacontenttype", "time", "specversion", "id", "type", "subject", "dataschema", "datacontenttype"]

  /** The seven keys written on encode, in writing order. */
  const WrittenKeys: seq<string> := ["source", "data", "datacontenttype", "time", "specversion", "id", "type"]

  /** `['source' => …, 'data' => …, 'datacontenttype' => …, 'time' => …,
      'specversion' => …, 'id' => …, 'type' => …]`: exactly these keys, in this
      order, so subject, data schema and extensions are not written. */
  function WireObject(m: Metadata, data: Value): (v: Value)
    ensures v.Dict? && Keys(v.entries) == WrittenKeys
  {
    var es := [
      Entry("source", Str(m.source)),
      Entry("data", data),
      Entry("datacontenttype", Str(m.dataContentType)),
      Entry("time", Str(m.time)),
      Entry("specversion", Str(m.specVersion)),
      Entry("id", Str(m.id)),
      Entry("type", Str(m.eventType))];
    assert Keys(es) == WrittenKeys;
    Dict(es)
  }

  /** Each written key holds the attribute it is named after; subject and
      data schema are absent. */
  lemma WireObjectFields(m: Metadata, data: Value)
    ensures var v := WireObject(m, data);
      && Index(v, "source") == Str(m.source)
      && Index(v, "data") == data
      && Index(v, "datacontenttype") == Str(m.dataContentType)
      && Index(v, "time") == Str(m.time)
      && Index(v, "specversion") == Str(m.specVersion)
      && Index(v, "id") == Str(m.id)
      && Index(v, "type") == Str(m.eventType)
      && Index(v, "subject") == Null
      && Index(v, "dataschema") == Null
  {
    var es := WireObject(m, data).entries;
    LeadingFields(es, m, data);
    TrailingFields(es, m);
    LookupMissingKey(es, "subject");
    LookupMissingKey(es, "dataschema");
  }

  /** The first four written keys hold source, data, content type and time. */
  lemma LeadingFields(es: seq<Entry>, m: Metadata, data: Value)
    requires es == WireObject(m, data).entries
    ensures Lookup(es, "source") == Some(Str(m.source))
    ensures Lookup(es, "data") == Some(data)
    ensures Lookup(es, "datacontenttype") == Some(Str(m.dataContentType))
    ensures Lookup(es, "time") == Some(Str(m.time))
  {
    LookupFirst(es, 0, "source");
    LookupFirst(es, 1, "data");
    LookupFirst(es, 2, "datacontenttype");
    LookupFirst(es, 3, "time");
  }

  /** The last three hold spec version, id and type. */
  lemma TrailingFields(es: seq<Entry>, m: Metadata)
    requires |es| == 7 && Keys(es) == WrittenKeys
    requires es[4].value == Str(m.specVersion) && es[5].value == Str(m.id) && es[6].value == Str(m.eventType)
    ensures Lookup(es, "specversion") == Some(Str(m.specVersion))
    ensures Lookup(es, "id") == Some(Str(m.id))
    ensures Lookup(es, "type") == Some(Str(m.eventType))
  {
    LookupFirst(es, 4, "specversion");
    LookupFirst(es, 5, "id");
    LookupFirst(es, 6, "type");
  }
}
