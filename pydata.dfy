/** Dynamically typed values as the retrieval code sees them: decoded JSON
    values and the rows (Python dicts) the store returns. */
module PyData {

  datatype Value =
    | JNull
    | JBool(b: bool)
    | JNum(n: real)
    | JStr(s: string)
    | JArr(items: seq<Value>)
    | JObj(fields: map<string, Value>)

  /** A store row or context record: a dict with string keys. */
  type Row = map<string, Value>

  /** `d.get(key, default)`. */
  function Get(d: Row, key: string, default: Value): (r: Value)
    ensures key in d ==> r == d[key]
    ensures key !in d ==> r == default
  {
    if key in d then d[key] else default
  }
}
