/**
 * The values the audit mixin handles: decoded JSON, the field mappings that a
 * serializer produces for one model instance, and Python's `None` and
 * exceptions as datatypes.
 */
module Values {

  /** An octet of a request or response body. */
  newtype byte = x: int | 0 <= x < 256

  datatype Option<+T> = None | Some(value: T)

  /** An exception that propagates out of the wrapper, from the view or from `objects.get`. */
  datatype Fault =
    | MultipleObjectsReturned   // `objects.get` found more than one instance
    | Raised(name: string)      // any other exception, named by its class

  datatype Result<+T> = Ok(value: T) | Err(error: Fault)

  /** A decoded JSON value (numbers are kept integral here). */
  datatype Json =
    | JNull
    | JBool(b: bool)
    | JNumber(n: int)
    | JString(s: string)
    | JArray(items: seq<Json>)
    | JObject(fields: map<string, Json>)

  /** A serialized model instance: field name to value. */
  type Fields = map<string, Json>

  const EmptyObject: Json := JObject(map[])

  /**
   * Python truthiness of a snapshot: `None` and the empty dict are false,
   * every other dict is true.
   */
  predicate Truthy(snapshot: Option<Fields>) {
    snapshot.Some? && snapshot.value != map[]
  }

  /** `dict.get(key)`: the value under `key`, or `None` when it is missing. */
  function Get(m: map<string, Json>, key: string): Json {
    if key in m then m[key] else JNull
  }

  /** How an optional snapshot is written into a log record. */
  function SnapshotJson(snapshot: Option<Fields>): Json {
    match snapshot
    case None => JNull
    case Some(m) => JObject(m)
  }

  /** How an optional JSON value is written into a log record. */
  function OptionJson(o: Option<Json>): Json {
    match o
    case None => JNull
    case Some(v) => v
  }
}
