/** JSON values as built in memory before `JSON.stringify` turns them into
    text. The text form itself is not modelled: two values are the same
    document exactly when they are equal trees. */
module Json {
  import opened Wrappers
  import opened Seqs

  /** A JSON value. An object keeps the insertion order of its keys in `keys`
      beside its key/value map `fields`, as a JavaScript object literal does.
      `JFloat` is a floating-point number, kept as the decimal text it is
      parsed from; its value is not modelled. */
  datatype Json =
    | JNull
    | JNum(n: int)
    | JFloat(literal: string)
    | JStr(s: string)
    | JArr(items: seq<Json>)
    | JObj(keys: seq<string>, fields: map<string, Json>)

  /** An object whose key order names each key of its map exactly once. */
  predicate WellFormedObject(j: Json) {
    j.JObj? && Distinct(j.keys) && j.fields.Keys == (set k | k in j.keys)
  }

  /** The member `key` of an object; `None` for a missing key or a non-object. */
  function Get(j: Json, key: string): Option<Json> {
    if j.JObj? && key in j.fields then Some(j.fields[key]) else None
  }

  /** The member `key` when it is a string. */
  function GetStr(j: Json, key: string): Option<string> {
    match Get(j, key)
    case Some(JStr(s)) => Some(s)
    case _ => None
  }

  /** The member `key` when it is an array. */
  function GetArr(j: Json, key: string): Option<seq<Json>> {
    match Get(j, key)
    case Some(JArr(items)) => Some(items)
    case _ => None
  }

  /** The member `key` when it is an integer. */
  function GetNum(j: Json, key: string): Option<int> {
    match Get(j, key)
    case Some(JNum(n)) => Some(n)
    case _ => None
  }

  /** An array of JSON strings, one per element of `ss`, in order. */
  function StrArray(ss: seq<string>): (r: Json)
    ensures r.JArr? && |r.items| == |ss|
    ensures forall i :: 0 <= i < |ss| ==> r.items[i] == JStr(ss[i])
  {
    JArr(seq(|ss|, i requires 0 <= i < |ss| => JStr(ss[i])))
  }
}
