/**
 * The dynamically typed Python values that reach the modelled entry points:
 * configuration entries, keyword arguments, `as_admin` flags, debug flags and
 * timestamps all arrive as one of these.
 */
module PyValues {

  datatype PyValue =
    | PyNone
    | PyBool(b: bool)
    | PyInt(i: int)
    | PyStr(s: string)
    /** A Python float, modelled as an exact real. */
    | PyFloat(r: real)
    /** A `datetime` value, represented by what its `timestamp()` returns. */
    | PyDateTime(seconds: real)
    | PyList(items: seq<PyValue>)
    /** Any other object (a dict, a client instance, ...). */
    | PyOther

  /** A configuration mapping such as the one `SDKMethodRunner` receives. */
  type Config = map<string, PyValue>

  /** `d.get(key, default)`: the stored value, or `default` when the key is missing. */
  function GetOr(d: map<string, PyValue>, key: string, default: PyValue): (v: PyValue)
    ensures key in d ==> v == d[key]
    ensures key !in d ==> v == default
  {
    if key in d then d[key] else default
  }

  /** `d.get(key)`: as `GetOr` with Python's `None` as the default. */
  function Get(d: map<string, PyValue>, key: string): (v: PyValue)
    ensures v != PyNone ==> key in d && d[key] == v
  {
    GetOr(d, key, PyNone)
  }
}
