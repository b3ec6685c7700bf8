/** The JSON values that `JSON.parse` can produce, and the two JavaScript
    object operations the application applies to a parsed value: property
    deletion and object spread. The parser and serialiser themselves are
    parameters of the members that use them. */
module Json {
  import opened Common

  datatype Json =
    | JNull
    | JBool(b: bool)
    | JNum(n: real)
    | JStr(s: string)
    | JArr(items: seq<Json>)
    | JObj(fields: map<string, Json>)

  /** JavaScript truthiness of a parsed value (JSON has no NaN). */
  predicate Truthy(v: Json) {
    match v
    case JNull => false
    case JBool(b) => b
    case JNum(n) => n != 0.0
    case JStr(s) => s != ""
    case _ => true
  }

  /** The own enumerable properties that `{ ...v }` copies: the fields of an
      object, the indices of an array or of a string, nothing for the
      other primitives. */
  function Spread(v: Json): (r: map<string, Json>)
    ensures v.JObj? ==> r == v.fields
    ensures v.JArr? ==> |r| == |v.items| && forall i :: 0 <= i < |v.items| ==> NatToString(i) in r && r[NatToString(i)] == v.items[i]
    ensures v.JStr? ==> |r| == |v.s| && forall i :: 0 <= i < |v.s| ==> NatToString(i) in r && r[NatToString(i)] == JStr([v.s[i]])
    ensures !v.JObj? && !v.JArr? && !v.JStr? ==> r == map[]
  {
    match v
    case JObj(f) => f
    case JArr(items) => IndexMap(items)
    case JStr(s) => IndexMap(seq(|s|, i requires 0 <= i < |s| => JStr([s[i]])))
    case _ => map[]
  }

  /** Keys "0", "1", ... for the elements of a sequence. */
  function IndexMap(items: seq<Json>): (r: map<string, Json>)
    ensures |r| == |items|
    ensures forall i :: 0 <= i < |items| ==> NatToString(i) in r && r[NatToString(i)] == items[i]
    ensures forall k :: k in r ==> exists i :: 0 <= i < |items| && k == NatToString(i)
  {
    if items == [] then map[]
    else
      var n := |items| - 1;
      var prev := IndexMap(items[..n]);
      assert NatToString(n) !in prev by {
        if NatToString(n) in prev {
          var i :| 0 <= i < n && NatToString(n) == NatToString(i);
          NatToStringInjective(i, n);
        }
      }
      prev[NatToString(n) := items[n]]
  }
}
