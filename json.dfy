/**
  JSON values as they travel between the adapter and the invoicing API:
  query parameter values, request bodies and decoded response bodies.
  Python floats (prices) are carried as `JFloat` and never computed with.
 */
module Json {

  import opened Wrappers

  datatype Json =
    | JNull
    | JBool(b: bool)
    | JInt(i: int)
    | JFloat(f: real)
    | JStr(s: string)
    | JArray(items: seq<Json>)
    | JObject(fields: map<string, Json>)

  /** The JSON form of a Python `Optional[str]`: `None` becomes `null`. */
  function OptStr(o: Option<string>): (j: Json)
    ensures o.None? <==> j == JNull
    ensures o.Some? ==> j == JStr(o.value)
  {
    match o
    case None => JNull
    case Some(s) => JStr(s)
  }

  /** The JSON form of a Python `Optional[int]`. */
  function OptInt(o: Option<int>): (j: Json)
    ensures o.None? <==> j == JNull
    ensures o.Some? ==> j == JInt(o.value)
  {
    match o
    case None => JNull
    case Some(n) => JInt(n)
  }

  /** A list of Python ints as a JSON array. */
  function IntArray(ns: seq<int>): (j: Json)
    ensures j.JArray? && |j.items| == |ns|
    ensures forall k :: 0 <= k < |ns| ==> j.items[k] == JInt(ns[k])
  {
    JArray(seq(|ns|, k requires 0 <= k < |ns| => JInt(ns[k])))
  }
}
