/** JSON values as the validator receives them from `JSON.parse`. */
module Values {

  /** `None` plays the part of JavaScript's `undefined`. */
  datatype Option<+T> = None | Some(value: T)

  /** A parsed JSON value. Numbers are exact rationals; the key order of an
      object is not modelled, since nothing in the validator depends on it. */
  datatype Json =
    | JNull
    | JBool(b: bool)
    | JNum(n: real)
    | JStr(s: string)
    | JArr(items: seq<Json>)
    | JObj(fields: map<string, Json>)

  /** Reading `obj[key]`: an absent key gives `None`, which is a different
      thing from a key that is present and holds `null`. */
  function Get(fields: map<string, Json>, key: string): (r: Option<Json>)
    ensures r.None? <==> key !in fields
    ensures r.Some? ==> r.value == fields[key]
  {
    if key in fields then Some(fields[key]) else None
  }

  /** The type name zod reports as "received" for a value that is present. */
  function TypeName(j: Json): string
  {
    match j
    case JNull => "null"
    case JBool(_) => "boolean"
    case JNum(_) => "number"
    case JStr(_) => "string"
    case JArr(_) => "array"
    case JObj(_) => "object"
  }

  /** A present string, or nothing at all. */
  predicate OptionalString(v: Option<Json>)
  {
    v.None? || v.value.JStr?
  }

  /** A present string. */
  predicate PresentString(v: Option<Json>)
  {
    v.Some? && v.value.JStr?
  }

  /** An optional string as an optional JSON string. */
  function Lift(o: Option<string>): Option<Json>
  {
    match o
    case None => None
    case Some(s) => Some(JStr(s))
  }
}
