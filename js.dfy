/**
 * The JavaScript values that flow through the back end: what `JSON.parse`
 * produces, what the route handlers build as query documents, and the `Date`
 * objects that `new Date(...)` creates.
 */
module Js {
  import opened Wrappers

  /** The value of a `Date` object; a string that does not parse gives an Invalid Date. */
  datatype Instant = Instant(epochMillis: int) | InvalidDate

  /**
   * A JavaScript value. Numbers are reals (no NaN or infinities: neither can
   * come out of JSON). Objects are maps from property name to value.
   */
  datatype Value =
    | Null
    | Bool(b: bool)
    | Num(n: real)
    | Str(s: string)
    | Arr(items: seq<Value>)
    | Obj(fields: map<string, Value>)
    | DateObj(at: Instant)

  /** JavaScript truthiness: `null`, `false`, `0` and `""` are falsy; every object is truthy. */
  predicate Truthy(v: Value)
    ensures Truthy(v) <==> v != Null && v != Bool(false) && v != Num(0.0) && v != Str("")
  {
    match v
    case Null => false
    case Bool(b) => b
    case Num(n) => n != 0.0
    case Str(s) => s != ""
    case _ => true
  }

  /** Truthiness of a property that may be `undefined` (None). */
  predicate Present(v: Option<Value>)
  {
    v.Some? && Truthy(v.value)
  }

  /** Truthiness of a query-string parameter that may be absent. */
  predicate Given(p: Option<string>)
  {
    p.Some? && p.value != ""
  }

  /** `p = fallback` in a destructuring pattern: the default applies only when `p` is undefined. */
  function OrDefault(p: Option<string>, fallback: string): (r: string)
    ensures p.Some? ==> r == p.value
    ensures p.None? ==> r == fallback
  {
    if p.Some? then p.value else fallback
  }

  /** Property lookup, with `undefined` for a missing property or a non-object receiver. */
  function Get(v: Value, key: string): (r: Option<Value>)
    ensures r.Some? <==> v.Obj? && key in v.fields
    ensures r.Some? ==> r.value == v.fields[key]
  {
    if v.Obj? && key in v.fields then Some(v.fields[key]) else None
  }

  /** An object literal with one property. */
  function Single(key: string, v: Value): Value
  {
    Obj(map[key := v])
  }

  /** `err.response` of an HTTP client error, present when the server answered with an error status. */
  datatype UpstreamError = UpstreamError(errorMessage: Option<Value>)  // err.response.data?.error?.message

  /** A thrown JavaScript error: its `name`, its `message`, and its `response` when it has one. */
  datatype Thrown = Thrown(name: string, message: string, response: Option<UpstreamError>)

  /** The `{error, details}` body every route sends on failure. */
  function ErrorBody(error: string, details: Value): (r: Value)
    ensures r.Obj? && r.fields.Keys == {"error", "details"}
    ensures r.fields["error"] == Str(error) && r.fields["details"] == details
  {
    Obj(map["error" := Str(error), "details" := details])
  }

  /** The keys of a pipeline stage object: for a well-formed stage, its one operator name. */
  function StageKeys(stage: Value): set<string>
  {
    if stage.Obj? then stage.fields.Keys else {}
  }
}
