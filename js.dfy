/**
 * The parts of JavaScript's value semantics the client relies on: parsed JSON
 * values, truthiness, property reads, conversion to string, and the errors a
 * promise can be rejected with.
 */
module Js {
  import opened Wrappers
  import opened Decimal

  /** A value produced by `response.json()`. Numbers are the safe integers. */
  datatype Json =
    | JNull
    | JBool(b: bool)
    | JNum(n: SafeInteger)
    | JStr(s: string)
    | JArr(items: seq<Json>)
    | JObj(fields: map<string, Json>)

  /** What a rejected promise carries. */
  datatype Thrown =
    | Error(message: string)  // `new Error(message)`
    | FetchFailed             // the TypeError `fetch` rejects with on a network failure
    | NullProperty            // the TypeError from reading a property of `null`
    | BadJson                 // the SyntaxError `response.json()` rejects with

  /** How an awaited call settles: a value, or a thrown error. */
  datatype Result<T> = Ok(value: T) | Throw(exc: Thrown)

  /** JavaScript truthiness of a JSON value; `None` stands for `undefined`. */
  predicate Truthy(v: Option<Json>)
    ensures Truthy(v) ==> v.Some? && !v.value.JNull?
    ensures v.Some? && (v.value.JArr? || v.value.JObj?) ==> Truthy(v)  // even `[]` and `{}`
  {
    match v
    case None => false
    case Some(JNull) => false
    case Some(JBool(b)) => b
    case Some(JNum(n)) => n != 0
    case Some(JStr(s)) => s != ""
    case Some(JArr(_)) => true
    case Some(JObj(_)) => true
  }

  /** `parts.join(",")`. */
  function Join(parts: seq<string>): string {
    if |parts| == 0 then ""
    else if |parts| == 1 then parts[0]
    else Join(parts[..|parts| - 1]) + "," + parts[|parts| - 1]
  }

  /** `String(j)`; inside an array, `null` is written as the empty string. */
  function ToJsString(j: Json): (r: string)
    ensures j.JStr? ==> r == j.s
    ensures j.JNum? ==> Canonical(r) && ParseInt(r) == Some(j.n as int)
    ensures j.JObj? ==> r == "[object Object]"
    ensures j == JArr([]) ==> r == ""
    decreases j
  {
    match j
    case JNull => "null"
    case JBool(b) => if b then "true" else "false"
    case JNum(n) => IntToStringRoundTrip(n); IntToString(n)
    case JStr(s) => s
    case JArr(items) =>
      Join(seq(|items|, i requires 0 <= i < |items| =>
        if items[i].JNull? then "" else ToJsString(items[i])))
    case JObj(_) => "[object Object]"
  }

  /** `String(v)` as `localStorage.setItem` applies it; `undefined` becomes "undefined". */
  function StorageString(v: Option<Json>): (r: string)
    ensures v.None? ==> r == "undefined"
    ensures v.Some? && v.value.JStr? ==> r == v.value.s
    ensures v == Some(JNull) ==> r == "null"
  {
    if v.Some? then ToJsString(v.value) else "undefined"
  }

  /**
   * `j[key]` for the property names the client reads (`access`, `refresh`,
   * `token`, `message`), none of which a primitive value or an array has.
   * Reading a property of `null` throws.
   */
  function Get(j: Json, key: string): (r: Result<Option<Json>>)
    ensures r.Throw? <==> j.JNull?
    ensures r.Throw? ==> r.exc == NullProperty
    ensures r.Ok? && r.value.Some? ==> j.JObj? && key in j.fields && r.value.value == j.fields[key]
    ensures j.JObj? ==> r == Ok(if key in j.fields then Some(j.fields[key]) else None)
    ensures !j.JObj? && !j.JNull? ==> r == Ok(None)
  {
    match j
    case JNull => Throw(NullProperty)
    case JObj(fields) => Ok(if key in fields then Some(fields[key]) else None)
    case _ => Ok(None)
  }

  /** `v?.[key]`: `undefined` when `v` is `null` or `undefined`. */
  function OptionalGet(v: Option<Json>, key: string): (r: Option<Json>)
    ensures r.Some? ==> v.Some? && v.value.JObj? && key in v.value.fields && r.value == v.value.fields[key]
    ensures v.Some? && v.value.JObj? && key in v.value.fields ==> r == Some(v.value.fields[key])
  {
    if v.None? || v.value.JNull? then None else Get(v.value, key).value
  }
}
