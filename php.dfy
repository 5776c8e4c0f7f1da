/** The PHP values that flow through the transport (message bodies, headers,
    markers, decoded JSON) and the few PHP language rules the code relies on:
    `empty()`, reading an array offset, and `foreach` over an array. */
module Php {
  import opened Outcomes

  /** A PHP value. PHP arrays are ordered. A list (`[1, 2]`) and a
      string-keyed array (`['a' => 1]`) are kept apart because `json_encode`
      writes them differently; one PHP array can take both forms (the empty
      array, or keys "0", "1", … in order), and `Json.Canonical` names the
      form `json_decode` gives. */
  datatype Value =
    | Null
    | Bool(b: bool)
    | Int(i: int)
    | Str(s: string)
    | List(items: seq<Value>)
    | Dict(entries: seq<Entry>)

  datatype Entry = Entry(key: string, value: Value)

  /** PHP's `empty()`: null, false, 0, "", "0" and the empty array. */
  predicate Empty(v: Value) {
    match v
    case Null => true
    case Bool(b) => !b
    case Int(i) => i == 0
    case Str(s) => EmptyString(s)
    case List(items) => items == []
    case Dict(entries) => entries == []
  }

  /** `empty()` on a string: "" and "0". */
  predicate EmptyString(s: string) {
    s == "" || s == "0"
  }

  predicate IsArray(v: Value) {
    v.List? || v.Dict?
  }

  /** Position of the first entry whose key is `k`, or `|es|` if there is none. */
  function FindKey(es: seq<Entry>, k: string): (i: nat)
    ensures i <= |es|
    ensures i < |es| ==> es[i].key == k
    ensures forall j :: 0 <= j < i ==> es[j].key != k
    decreases |es|
  {
    if es == [] then 0
    else if es[0].key == k then 0
    else 1 + FindKey(es[1..], k)
  }

  /** The value stored under `k`, if any. */
  function Lookup(es: seq<Entry>, k: string): Option<Value> {
    var i := FindKey(es, k);
    if i < |es| then Some(es[i].value) else None
  }

  /** The entry a lookup finds is the first one carrying the key. */
  lemma LookupFirst(es: seq<Entry>, i: nat, k: string)
    requires i < |es| && es[i].key == k
    requires forall j :: 0 <= j < i ==> es[j].key != k
    ensures Lookup(es, k) == Some(es[i].value)
  {
    var f := FindKey(es, k);
    assert f <= i;
    assert f >= i;
  }

  /** No entry carries the key, so a lookup finds nothing. */
  lemma LookupAbsent(es: seq<Entry>, k: string)
    requires forall j :: 0 <= j < |es| ==> es[j].key != k
    ensures Lookup(es, k) == None
  {
  }

  /** A key missing from the key list is not found. */
  lemma LookupMissingKey(es: seq<Entry>, k: string)
    requires k !in Keys(es)
    ensures Lookup(es, k) == None
  {
    forall j | 0 <= j < |es| ensures es[j].key != k {
      assert Keys(es)[j] == es[j].key;
    }
    LookupAbsent(es, k);
  }

  /** Looking up past a first entry: it answers when it carries the key. */
  lemma LookupCons(e: Entry, es: seq<Entry>, k: string)
    ensures Lookup([e] + es, k) == if e.key == k then Some(e.value) else Lookup(es, k)
  {
    assert ([e] + es)[1..] == es;
  }

  /** Looking up in a concatenation: the first part wins when it has the key. */
  lemma {:induction false} LookupAppend(a: seq<Entry>, b: seq<Entry>, k: string)
    ensures Lookup(a + b, k) == if Lookup(a, k).Some? then Lookup(a, k) else Lookup(b, k)
    decreases |a|
  {
    if a == [] {
      assert a + b == b;
    } else {
      assert (a + b)[1..] == a[1..] + b;
      LookupAppend(a[1..], b, k);
    }
  }

  /** Reading `$v[$k]` for a non-numeric string key: the stored value, or null
      when the key is absent or `$v` is not a string-keyed array. */
  function Index(v: Value, k: string): Value {
    if v.Dict? then Lookup(v.entries, k).GetOr(Null) else Null
  }

  function Keys(es: seq<Entry>): (r: seq<string>)
    ensures |r| == |es|
    ensures forall i :: 0 <= i < |es| ==> r[i] == es[i].key
  {
    seq(|es|, i requires 0 <= i < |es| => es[i].key)
  }

  /** The values `foreach ($v as $x)` visits, in order. */
  function Elements(v: Value): (r: seq<Value>)
    ensures v.List? ==> r == v.items
    ensures v.Dict? ==> |r| == |v.entries| && forall i :: 0 <= i < |r| ==> r[i] == v.entries[i].value
    ensures !IsArray(v) ==> r == []
  {
    match v
    case List(items) => items
    case Dict(es) => seq(|es|, i requires 0 <= i < |es| => es[i].value)
    case _ => []
  }

  /** A string-keyed PHP array read as a map: the first entry of each key wins,
      as `Lookup` does. */
  function AsMap(es: seq<Entry>): (m: map<string, Value>)
    ensures forall k :: k in m <==> FindKey(es, k) < |es|
    ensures forall k :: k in m ==> Lookup(es, k) == Some(m[k])
    decreases |es|
  {
    if es == [] then map[]
    else AsMap(es[1..])[es[0].key := es[0].value]
  }

  function Digit(d: nat): char
    requires d < 10
  {
    "0123456789"[d]
  }

  /** Decimal form of a natural number, as PHP writes an integer array key. */
  function NatToString(n: nat): (s: string)
    ensures |s| > 0
    decreases n
  {
    if n < 10 then [Digit(n)] else NatToString(n / 10) + [Digit(n % 10)]
  }

  /** Decimal form of an integer. */
  function IntToString(i: int): (s: string)
    ensures |s| > 0
  {
    if i < 0 then "-" + NatToString(-i) else NatToString(i)
  }

  /** The string a user-defined function receives for a `string` parameter
      in non-strict mode: booleans and integers are converted, null and
      arrays raise a TypeError (None). */
  function StringArgument(v: Value): (r: Option<string>)
    ensures r.None? <==> IsArray(v) || v.Null?
    ensures v.Str? ==> r == Some(v.s)
    ensures v.Int? ==> r == Some(IntToString(v.i))
  {
    match v
    case Null => None
    case Bool(b) => Some(if b then "1" else "")
    case Int(i) => Some(IntToString(i))
    case Str(s) => Some(s)
    case List(_) => None
    case Dict(_) => None
  }

  /** The string a built-in function such as `json_decode` receives: as for a
      user-defined function, except that null is still accepted as "". */
  function BuiltinStringArgument(v: Value): (r: Option<string>)
    ensures r.None? <==> IsArray(v)
    ensures v.Null? ==> r == Some("")
    ensures !v.Null? ==> r == StringArgument(v)
  {
    if v.Null? then Some("") else StringArgument(v)
  }

  /** The boolean a user-defined function receives for a `bool` parameter in
      non-strict mode: 0, "" and "0" are false, other scalars true; null and
      arrays raise a TypeError (None). */
  function BoolArgument(v: Value): (r: Option<bool>)
    ensures r.None? <==> IsArray(v) || v.Null?
    ensures r.Some? ==> (r.value <==> !Empty(v))
  {
    match v
    case Null => None
    case Bool(b) => Some(b)
    case Int(i) => Some(i != 0)
    case Str(s) => Some(!EmptyString(s))
    case List(_) => None
    case Dict(_) => None
  }
}
