/** An event type string `"<exchange>.<routingKey>"` and how every component
    splits it: the text before the last "." names the exchange, the text after
    it is the routing key (`strrpos`/`strrchr` followed by `substr`). */
module EventTypes {

  datatype Route = Route(exchange: string, routingKey: string)

  /** Position of the last "." in `t` (`strrpos($t, ".")`). */
  function LastDot(t: string): (i: nat)
    requires '.' in t
    ensures i < |t| && t[i] == '.'
    ensures forall j :: i < j < |t| ==> t[j] != '.'
    decreases |t|
  {
    if t[|t| - 1] == '.' then |t| - 1
    else
      assert '.' in t[..|t| - 1] by {
        var k :| 0 <= k < |t| && t[k] == '.';
        assert t[..|t| - 1][k] == '.';
      }
      LastDot(t[..|t| - 1])
  }

  /** Exchange and routing key `publish` derives from an event type: the
      text before the last "." and the text after it. Without a ".",
      `strrpos` gives false, which `substr` reads as 0: the exchange is ""
      and the routing key is the type from offset 1. */
  function Split(t: string): (r: Route)
    ensures '.' in t ==> r.exchange + "." + r.routingKey == t && '.' !in r.routingKey
    ensures '.' !in t ==> r == Route("", if t == "" then "" else t[1..])
  {
    if '.' in t then
      var i := LastDot(t);
      assert t == t[..i] + "." + t[i + 1..];
      Route(t[..i], t[i + 1..])
    else Route("", if t == "" then "" else t[1..])
  }

  /** Exchange and routing key the `setup` bindings derive from an event
      type: the same split, except that without a "." `strrchr` gives false
      too, so the routing key is "" as well. */
  function BindingRoute(t: string): (r: Route)
    ensures '.' in t ==> r == Split(t)
    ensures '.' !in t ==> r == Route("", "")
  {
    if '.' in t then Split(t) else Route("", "")
  }

  /** The two derivations differ only on a type without ".": publishing
      "Audit" goes to the routing key "udit", the binding uses "". */
  lemma DotlessRoutesDiffer()
    ensures Split("Audit") == Route("", "udit")
    ensures BindingRoute("Audit") == Route("", "")
  {
  }

  /** The split is the only one with a dot-free routing key: whenever
      `t == e + "." + k` and `k` has no ".", Split gives back `e` and `k`. */
  lemma SplitUnique(e: string, k: string)
    requires '.' !in k
    ensures Split(e + "." + k) == Route(e, k)
  {
    var t := e + "." + k;
    var i := LastDot(t);
    assert t[|e|] == '.';
    assert i == |e|;
    assert t[..i] == e;
    assert t[i + 1..] == k;
  }
}
