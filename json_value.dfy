/** JSON values as parsed from configuration text and request bodies. Numbers are kept as reals. */
module JsonValue {
  import opened Optional

  datatype Json =
    | JNull
    | JBool(b: bool)
    | JNum(n: real)
    | JStr(s: string)
    | JArr(elems: seq<Json>)
    | JObj(fields: map<string, Json>)

  /** JavaScript truthiness of a parsed value (numbers are never NaN here). */
  predicate JsTruthy(v: Json) {
    match v
    case JNull => false
    case JBool(b) => b
    case JNum(n) => n != 0.0
    case JStr(s) => s != ""
    case _ => true
  }

  /** The strings of an array whose every element is a string (`Array.isArray(v) && v.every(p => typeof p === 'string')`). */
  function StringArray(v: Json): (r: Option<seq<string>>)
    ensures r.Some? <==> v.JArr? && forall i :: 0 <= i < |v.elems| ==> v.elems[i].JStr?
    ensures r.Some? ==> |r.value| == |v.elems| && forall i :: 0 <= i < |r.value| ==> v.elems[i] == JStr(r.value[i])
  {
    if v.JArr? && forall i :: 0 <= i < |v.elems| ==> v.elems[i].JStr? then
      Some(seq(|v.elems|, i requires 0 <= i < |v.elems| => v.elems[i].s))
    else None
  }
}
