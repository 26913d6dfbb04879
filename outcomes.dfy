/** Value shapes shared by every layer: optional values, the outcome of a call
    into code outside the model, and the `{data} | {error}` envelope the
    services return. */
module Outcomes {

  /** A value that may be `undefined` (or `null`, which the code treats alike). */
  datatype Option<+T> = None | Some(value: T) {
    /** The `??` operator: the value if present, else the default. */
    function GetOr(default: T): T {
      match this
      case Some(v) => v
      case None => default
    }
  }

  /** What an awaited call into an external client produces: the resolved
      value, or a rejection carrying the error's `message` ("" when it has none). */
  datatype Outcome<+T> = Ok(value: T) | Fail(message: string)

  /** The service envelope `GenericResponse<T>`: `{ data }` or `{ error }`,
      never both. */
  datatype Response<+T> = Data(data: T) | Error(error: string)

  /** Reading a key of a record or a table: its value, or `undefined` when
      there is none. */
  function Find<K, V>(m: map<K, V>, k: K): (v: Option<V>)
    ensures v.Some? <==> k in m
    ensures v.Some? ==> v.value == m[k]
  {
    if k in m then Some(m[k]) else None
  }

  /** A promise awaited inside a `try`: it resolves, or it throws. */
  datatype Settled<+T> = Resolved(value: T) | Rejected

  /** The catch-all of every service operation: a resolved value becomes
      `{ data }`; a rejection becomes `{ error: message || fallback }`. */
  function Envelope<T>(outcome: Outcome<T>, fallback: string): (r: Response<T>)
    requires fallback != ""
    ensures r.Data? <==> outcome.Ok?
    ensures outcome.Ok? ==> r.data == outcome.value
    ensures outcome.Fail? && outcome.message != "" ==> r.error == outcome.message
    ensures outcome.Fail? && outcome.message == "" ==> r.error == fallback
    ensures r.Error? ==> r.error != ""
  {
    match outcome
    case Ok(v) => Data(v)
    case Fail(m) => Error(if m != "" then m else fallback)
  }
}

/** The JSON values that reach the HTTP controllers and the validators. */
module JsonValues {

  datatype Json =
    | JString(s: string)
    | JNumber(n: real)
    | JBool(b: bool)
    | JNull
    | JArray(items: seq<Json>)
    | JObject(fields: map<string, Json>)

  /** JavaScript truthiness of a JSON value (`undefined` is handled by the
      caller as an absent field): "", 0, false and null are falsy. */
  predicate Truthy(j: Json) {
    match j
    case JString(s) => s != ""
    case JNumber(n) => n != 0.0
    case JBool(b) => b
    case JNull => false
    case _ => true
  }
}
