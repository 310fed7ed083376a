/** The dynamic values that flow through the service: JSON payloads, record
    fields, filter dictionaries and stored metadata. */
module Values {
  import opened Wrappers

  /** A JSON-like value. `Instant(ms)` stands for the ISO-8601 UTC string
      that `datetime.isoformat()` renders for that instant (milliseconds
      since the Unix epoch); the rendering itself is not modelled. */
  datatype Value =
    | Null
    | Bool(b: bool)
    | Int(i: int)
    | Real(r: real)
    | Str(s: string)
    | Instant(epochMs: int)
    | List(items: seq<Value>)
    | Obj(fields: map<string, Value>)

  /** Python truthiness of a value. */
  predicate Truthy(v: Value) {
    match v
    case Null => false
    case Bool(b) => b
    case Int(i) => i != 0
    case Real(r) => r != 0.0
    case Str(s) => s != ""
    case Instant(_) => true
    case List(items) => items != []
    case Obj(fields) => fields != map[]
  }

  /** `d.get(k, default)`. */
  function Get(d: map<string, Value>, k: string, default: Value): (v: Value)
    ensures k in d ==> v == d[k]
    ensures k !in d ==> v == default
  {
    if k in d then d[k] else default
  }

  /** An optional string is truthy when present and non-empty. */
  predicate TruthyStr(c: Option<string>) {
    c.Some? && c.value != ""
  }

  /** An optional string as a dictionary value (`None` becomes JSON null). */
  function OptStr(c: Option<string>): (v: Value)
    ensures Truthy(v) <==> TruthyStr(c)
  {
    match c
    case Some(s) => Str(s)
    case None => Null
  }

  /** The larger of two integers. */
  function Max(a: int, b: int): (m: int)
    ensures m >= a && m >= b && (m == a || m == b)
  {
    if a < b then b else a
  }

  /** Python's `int(x)` on a float: truncation toward zero. */
  function Trunc(x: real): (n: int)
    ensures x >= 0.0 ==> n as real <= x < n as real + 1.0
    ensures x < 0.0 ==> n as real - 1.0 < x <= n as real
  {
    if x >= 0.0 then x.Floor else -((-x).Floor)
  }

  /** A response body as `response.json()` sees it: decoded, or rejected. */
  datatype Body = Json(payload: Value) | NotJson
}
