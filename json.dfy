/** JSON values as the JavaScript code sees them after `JSON.parse`. */
module Json {
  import opened Wrappers

  /** A parsed JSON value. Numbers are integers in this model. */
  datatype Json =
    | JNull
    | JBool(b: bool)
    | JNum(n: int)
    | JStr(s: string)
    | JArr(items: seq<Json>)
    | JObj(fields: map<string, Json>)

  /** JavaScript truthiness of a parsed value. */
  predicate Truthy(j: Json) {
    match j
    case JNull => false
    case JBool(b) => b
    case JNum(n) => n != 0
    case JStr(s) => s != ""
    case JArr(_) => true
    case JObj(_) => true
  }

  /** Truthiness of a property read, where `undefined` is falsy. */
  predicate TruthyField(v: Option<Json>) {
    v.Some? && Truthy(v.value)
  }

  /** `typeof j === 'object' && j !== null`: objects and arrays. */
  predicate IsObject(j: Json) {
    j.JObj? || j.JArr?
  }

  /** Property read `j[key]` of an object; anything else has no own
      properties of interest and reads as `undefined`. */
  function Get(j: Json, key: string): (r: Option<Json>)
    ensures r.Some? <==> j.JObj? && key in j.fields
  {
    if j.JObj? && key in j.fields then Some(j.fields[key]) else None
  }

  /** A string property, or `""` when the property is absent or not a string. */
  function GetString(j: Json, key: string): string {
    match Get(j, key)
    case Some(JStr(s)) => s
    case _ => ""
  }

  /** A numeric property, or `0` when the property is absent or not a number. */
  function GetNumber(j: Json, key: string): int {
    match Get(j, key)
    case Some(JNum(n)) => n
    case _ => 0
  }

  /** `v || fallback` for a string property: a non-empty string, or the
      fallback. A truthy value of another type reads as the fallback. */
  function StringOr(v: Option<Json>, fallback: string): (r: string)
    ensures v.Some? && v.value.JStr? && v.value.s != "" ==> r == v.value.s
    ensures !TruthyField(v) ==> r == fallback
  {
    match v
    case Some(JStr(s)) => if s != "" then s else fallback
    case _ => fallback
  }

  /** `v || fallback` for a numeric property: a non-zero number, or the
      fallback. A truthy value of another type reads as the fallback. */
  function NumberOr(v: Option<Json>, fallback: int): (r: int)
    ensures v.Some? && v.value.JNum? && v.value.n != 0 ==> r == v.value.n
    ensures !TruthyField(v) ==> r == fallback
  {
    match v
    case Some(JNum(n)) => if n != 0 then n else fallback
    case _ => fallback
  }
}
