/** The foreign library calls the codec depends on, taken as parameters:
    `json_encode`, `json_decode(…, true)` and the RFC 3339 check that
    `DateTime::createFromFormat(DateTimeInterface::RFC3339, …)` performs
    (the `date-time` production of section 5.6 of RFC 3339). */
module Json {
  import opened Outcomes
  import opened Php

  /** `encode` is `json_encode` with JSON_THROW_ON_ERROR (None: it threw);
      `decode` is `json_decode($s, true)` (None: malformed text);
      `isRfc3339` tells whether `createFromFormat` accepts the text. */
  datatype Platform = Platform(
    encode: Value -> Option<string>,
    decode: string -> Option<Value>,
    isRfc3339: string -> bool)

  /** The entries are those of a PHP list: keyed "0", "1", … in order. */
  predicate ListShaped(es: seq<Entry>) {
    forall i :: 0 <= i < |es| ==> es[i].key == NatToString(i)
  }

  /** No key occurs twice, as in every PHP array. */
  predicate DistinctKeys(es: seq<Entry>) {
    forall i, j :: 0 <= i < j < |es| ==> es[i].key != es[j].key
  }

  /** The form `json_decode($s, true)` gives a PHP array in. The model tells a
      list from a keyed array because `json_encode` writes them differently;
      PHP does not, so the empty array and an array keyed "0", "1", … in order
      are canonical only as lists, and keys never repeat. */
  predicate Canonical(v: Value)
    decreases v
  {
    match v
    case List(items) => forall i :: 0 <= i < |items| ==> Canonical(items[i])
    case Dict(es) =>
      && es != [] && !ListShaped(es) && DistinctKeys(es)
      && forall i :: 0 <= i < |es| ==> Canonical(es[i].value)
    case _ => true
  }

  /** The laws of a JSON library: `decode` gives values in canonical form,
      and text `encode` produces for a value in canonical form decodes back
      to that value. */
  ghost predicate Lawful(p: Platform) {
    && (forall s: string :: p.decode(s).Some? ==> Canonical(p.decode(s).value))
    && (forall v: Value, s: string {:trigger p.encode(v), p.decode(s)} ::
          Canonical(v) && p.encode(v) == Some(s) ==> p.decode(s) == Some(v))
  }

  /** The value JSON_FORCE_OBJECT makes `json_encode` write: every list,
      at any depth, becomes an object keyed "0", "1", … */
  function ForceObject(v: Value): Value
    decreases v
  {
    match v
    case List(items) =>
      Dict(seq(|items|, i requires 0 <= i < |items| => Entry(NatToString(i), ForceObject(items[i]))))
    case Dict(es) =>
      Dict(seq(|es|, i requires 0 <= i < |es| => Entry(es[i].key, ForceObject(es[i].value))))
    case _ => v
  }

  /** No list occurs anywhere inside `v`. */
  predicate ListFree(v: Value)
    decreases v
  {
    match v
    case List(_) => false
    case Dict(es) => forall i :: 0 <= i < |es| ==> ListFree(es[i].value)
    case _ => true
  }

  /** What FORCE_OBJECT produces never contains a list. */
  lemma {:induction false} ForceObjectIsListFree(v: Value)
    ensures ListFree(ForceObject(v))
    decreases v
  {
    match v
    case List(items) =>
      forall i | 0 <= i < |items| ensures ListFree(ForceObject(items[i])) {
        ForceObjectIsListFree(items[i]);
      }
    case Dict(es) =>
      forall i | 0 <= i < |es| ensures ListFree(ForceObject(es[i].value)) {
        ForceObjectIsListFree(es[i].value);
      }
    case _ =>
  }

  /** On a value without lists FORCE_OBJECT changes nothing; with the lemma
      above, ForceObject is idempotent. */
  lemma {:induction false} ForceObjectKeepsListFree(v: Value)
    requires ListFree(v)
    ensures ForceObject(v) == v
    decreases v
  {
    match v
    case Dict(es) =>
      var fs := seq(|es|, i requires 0 <= i < |es| => Entry(es[i].key, ForceObject(es[i].value)));
      forall i | 0 <= i < |es| ensures fs[i] == es[i] {
        ForceObjectKeepsListFree(es[i].value);
      }
      assert fs == es;
    case _ =>
  }
}
