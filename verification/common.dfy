/** Shared vocabulary for the model: optional values, error-carrying results,
    the loosely typed values that appear in the application's dictionaries,
    and Python truthiness. */
module Common {

  datatype Option<+T> = None | Some(value: T) {
    function GetOr(default: T): T {
      match this
      case Some(v) => v
      case None => default
    }
  }

  /** A value or the error message the source would return in its place. */
  datatype Result<+T> = Ok(value: T) | Err(message: string)

  /** A dictionary value as the application sees it: JSON from the database
      and the weather service. */
  datatype Value =
    | Null
    | Str(s: string)
    | Int(i: int)
    | Real(x: real)
    | Bool(b: bool)
    | Arr(items: seq<Value>)
    | Obj(fields: map<string, Value>)

  /** Python truthiness of a value. */
  predicate Truthy(v: Value) {
    match v
    case Null => false
    case Str(s) => s != ""
    case Int(i) => i != 0
    case Real(x) => x != 0.0
    case Bool(b) => b
    case Arr(a) => |a| > 0
    case Obj(m) => |m| > 0
  }

  /** The value as a number when Python can compare it with one (`bool` is
      an `int` subtype); `None` when the comparison would raise. */
  function Number(v: Value): Option<real> {
    match v
    case Int(i) => Some(i as real)
    case Real(x) => Some(x)
    case Bool(b) => Some(if b then 1.0 else 0.0)
    case _ => None
  }

  /** Python truthiness of an optional string (`None` and `""` are falsy). */
  predicate Filled(s: Option<string>) {
    s.Some? && s.value != ""
  }

  /** `d.get(k, default)`. */
  function Get(d: map<string, Value>, k: string, default: Value): Value {
    if k in d then d[k] else default
  }

  /** What a database insert or update returned: the rows it echoed back
      (none when nothing was stored), or the exception it raised. */
  datatype WriteReply = Stored(rows: seq<map<string, Value>>) | WriteRaised(message: string)

  /** The services' reading of an insert: `response.data[0]` when the reply
      holds rows, the service's own failure text when it holds none, and the
      error prefix followed by the exception's text when it raised. */
  function FirstStored(reply: WriteReply, failure: string, errorPrefix: string): (r: Result<map<string, Value>>)
    ensures r.Ok? <==> reply.Stored? && |reply.rows| > 0
    ensures r.Ok? ==> r.value == reply.rows[0]
    ensures reply.Stored? && |reply.rows| == 0 ==> r == Err(failure)
    ensures reply.WriteRaised? ==> r == Err(errorPrefix + reply.message)
  {
    match reply
    case WriteRaised(e) => Err(errorPrefix + e)
    case Stored(rows) => if |rows| > 0 then Ok(rows[0]) else Err(failure)
  }

  /** `{k: v for k, v in m.items() if k not in banned}`. */
  function WithoutKeys<V>(m: map<string, V>, banned: set<string>): (r: map<string, V>)
    ensures r.Keys == m.Keys - banned
    ensures forall k :: k in r ==> r[k] == m[k]
  {
    map k | k in m && k !in banned :: m[k]
  }

  /** Dropping keys loses nothing else: the kept part and the dropped part
      together are the original. */
  lemma WithoutKeysSplits<V>(m: map<string, V>, banned: set<string>)
    ensures WithoutKeys(m, banned) + (map k | k in m && k in banned :: m[k]) == m
  {
  }

  /** Seconds in one day; timestamps are seconds, dates are day numbers. */
  const SecondsPerDay: int := 86400

  /** `timedelta(seconds=s).days`: floor division, also for negative spans. */
  function WholeDays(seconds: int): int {
    seconds / SecondsPerDay
  }

  lemma WholeDaysBounds(seconds: int)
    ensures WholeDays(seconds) * SecondsPerDay <= seconds < (WholeDays(seconds) + 1) * SecondsPerDay
  {
  }
}
