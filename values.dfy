/**
 * The Python values the poller handles: decoded JSON documents, YAML
 * configuration documents and the records of the feed.
 */
module Values {

  /** A Python value as produced by `json.loads` or `yaml.safe_load`. */
  datatype Value =
    | Null                               // None
    | Bool(b: bool)
    | Int(i: int)
    | Str(s: string)                     // str / unicode
    | List(items: seq<Value>)
    | Dict(entries: map<string, Value>)

  /** Python truthiness, as used by `if x:` and `not x`. */
  predicate Truthy(v: Value)
  {
    match v
    case Null => false
    case Bool(b) => b
    case Int(i) => i != 0
    case Str(s) => s != ""
    case List(items) => items != []
    case Dict(entries) => entries != map[]
  }

  /**
   * Whether Python 2 can turn `v` into a byte string, as `str(v)` and a
   * byte-string template such as `'{} - {}'.format(...)` do. Strings decoded
   * from JSON or YAML are unicode when they hold a non-ASCII character, and
   * the ASCII codec then raises UnicodeEncodeError; every other value goes
   * through its `repr`, which is ASCII.
   */
  predicate Encodable(v: Value)
  {
    v.Str? ==> forall i :: 0 <= i < |v.s| ==> v.s[i] as int < 128
  }

  /** `d.get(k, default)` on a dict. */
  function GetOr(d: map<string, Value>, k: string, default: Value): Value
  {
    if k in d then d[k] else default
  }

  /** `d.get(k)`: None when the key is absent. */
  function Get(d: map<string, Value>, k: string): (r: Value)
    ensures r != Null ==> k in d && d[k] == r
  {
    GetOr(d, k, Null)
  }
}
