/**
  An abstract JSON value, standing in for the JSON library the coordinator
  uses to build its metadata documents. Only the structure of a document is
  modelled; its text form (indentation, key order, escaping) is not.
  An object is a map from keys to values, so assigning a key twice keeps the
  last value, as the library does.
 */
module Json {

  datatype Json =
    | JNull
    | JBool(b: bool)
    | JNumber(n: int)
    | JString(s: string)
    | JArray(items: seq<Json>)
    | JObject(fields: map<string, Json>)

  /** `j[key] = v` on a null or object value: a null value first becomes an empty object. */
  function Put(j: Json, key: string, v: Json): Json
    requires j.JNull? || j.JObject?
  {
    match j
    case JObject(fields) => JObject(fields[key := v])
    case JNull => JObject(map[key := v])
  }

  /**
    `j[index] = v` on a null or array value: a null value first becomes an
    empty array, and an array too short for `index` is padded with nulls.
   */
  function PutAt(j: Json, index: nat, v: Json): (r: Json)
    requires j.JNull? || j.JArray?
    ensures r.JArray?
    ensures var old_ := if j.JArray? then j.items else [];
            && |r.items| == (if index < |old_| then |old_| else index + 1)
            && r.items[index] == v
            && forall i :: 0 <= i < |r.items| && i != index ==>
                 r.items[i] == (if i < |old_| then old_[i] else JNull)
  {
    var items := if j.JArray? then j.items else [];
    if index < |items| then JArray(items[index := v])
    else JArray(items + seq(index - |items|, _ => JNull) + [v])
  }

  /** A vector of sizes serialised as a JSON array of numbers. */
  function NumberArray(xs: seq<nat>): Json
  {
    JArray(seq(|xs|, i requires 0 <= i < |xs| => JNumber(xs[i])))
  }
}
