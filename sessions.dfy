/**
 * The session handle that travels between the read path and the write
 * path, and the PHP values a session stores.
 */
module Sessions {

  /** A PHP value as stored in session data or in the cache. */
  datatype Value =
    | Null
    | Bool(b: bool)
    | Int(i: int)
    | Str(s: string)
    | Arr(entries: map<string, Value>)

  /** The associative data bag of a session. */
  type Data = map<string, Value>

  /**
   * A session: its identifier ("" means none issued yet), its data, whether
   * the data changed since it was loaded and whether rotation was requested.
   */
  datatype Session = Session(id: string, data: Data, changed: bool, regenerated: bool)

  /** PHP truthiness of a string: "" and "0" are falsy. */
  predicate TruthyString(s: string) {
    s != "" && s != "0"
  }

  /** PHP truthiness of a value (`null`, `false`, `0`, `""`, `"0"` and `[]` are falsy). */
  predicate Truthy(v: Value) {
    match v
    case Null => false
    case Bool(b) => b
    case Int(i) => i != 0
    case Str(s) => TruthyString(s)
    case Arr(m) => m != map[]
  }

  /** The data key under which a per-session cookie lifetime is kept. */
  const SessionLifetimeKey: string := "__SESSION_TTL__"

  /**
   * The per-session lifetime, read only when the key is present: an integer
   * is taken as is, anything else reads as 0.
   */
  function SessionLifetime(data: Data): (n: int)
    requires SessionLifetimeKey in data
    ensures data[SessionLifetimeKey].Int? ==> n == data[SessionLifetimeKey].i
    ensures !data[SessionLifetimeKey].Int? ==> n == 0
  {
    match data[SessionLifetimeKey]
    case Int(i) => i
    case _ => 0
  }
}
