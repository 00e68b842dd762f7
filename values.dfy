/** Values exchanged by the middlewares: JavaScript's optional values and JSON. */
module Values {

  /** `None` stands for JavaScript's `undefined`. */
  datatype Option<+T> = None | Some(value: T)

  /** A parsed JSON value, as body-parser produces it. */
  datatype Json =
    | JNull
    | JBool(b: bool)
    | JNum(n: real)
    | JStr(s: string)
    | JArr(items: seq<Json>)
    | JObj(fields: map<string, Json>)

  /** Property access `obj[key]`: `undefined` when the key is absent. */
  function Lookup(m: map<string, Json>, key: string): (v: Option<Json>)
    ensures v.Some? <==> key in m
    ensures v.Some? ==> v.value == m[key]
  {
    if key in m then Some(m[key]) else None
  }
}
