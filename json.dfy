/**
 * JSON values as a webhook delivers them, and the handful of Python
 * operations the handlers in `routes.py` apply to them: truth values, `dict.get`,
 * chained `.get(key, {})` lookups, the `in` operator and `str.join`.
 * Where Python raises, the operation returns `Err(str(e))`.
 */
module PyJson {

  datatype Option<+T> = None | Some(value: T)

  /** The outcome of a Python expression that may raise; `error` is `str(e)`. */
  datatype Result<+T> = Ok(value: T) | Err(error: string) {
    predicate IsFailure() { Err? }

    function PropagateFailure<U>(): Result<U>
      requires Err?
    {
      Err(error)
    }

    function Extract(): T
      requires Ok?
    {
      value
    }
  }

  /** A parsed JSON document (numbers other than integers are not modelled). */
  datatype Json =
    | JNull
    | JBool(b: bool)
    | JInt(i: int)
    | JStr(s: string)
    | JArr(items: seq<Json>)
    | JObj(fields: map<string, Json>)

  /** The name of the Python type `json.loads` produces for `v`. */
  function TypeName(v: Json): string {
    match v
    case JNull => "NoneType"
    case JBool(_) => "bool"
    case JInt(_) => "int"
    case JStr(_) => "str"
    case JArr(_) => "list"
    case JObj(_) => "dict"
  }

  /** Python truth value: None, False, 0, "", [] and {} are false. */
  predicate Truthy(v: Json) {
    match v
    case JNull => false
    case JBool(b) => b
    case JInt(i) => i != 0
    case JStr(s) => s != ""
    case JArr(a) => a != []
    case JObj(m) => m != map[]
  }

  /** `str(e)` of the AttributeError raised by `v.get(...)` on a non-dict. */
  function NoGet(v: Json): string {
    "'" + TypeName(v) + "' object has no attribute 'get'"
  }

  /** The message `.get` raises with on None. */
  lemma NoGetNone()
    ensures NoGet(JNull) == "'NoneType' object has no attribute 'get'"
  {
    assert TypeName(JNull) == "NoneType";
  }

  /** The message `.get` raises with on an int. */
  lemma NoGetInt(n: int)
    ensures NoGet(JInt(n)) == "'int' object has no attribute 'get'"
  {
  }

  /** `d.get(key, default)` on a dict `d`. */
  function DictGetOr(d: map<string, Json>, key: string, default: Json): Json {
    if key in d then d[key] else default
  }

  /** `d.get(key)` on a dict `d`. */
  function DictGet(d: map<string, Json>, key: string): Json {
    DictGetOr(d, key, JNull)
  }

  /** `v.get(key, default)`. */
  function GetOr(v: Json, key: string, default: Json): Result<Json> {
    if v.JObj? then Ok(if key in v.fields then v.fields[key] else default)
    else Err(NoGet(v))
  }

  /** True when `d.get(key, {})` yields a dict, so that a further `.get` on it does not raise. */
  predicate YieldsDict(d: map<string, Json>, key: string) {
    key in d ==> d[key].JObj?
  }

  /**
   * `d.get(k1, {}).get(k2)` on a dict `d`: the inner `.get` raises when `k1`
   * is present with a value that is not a dict (None included).
   */
  function Nested(d: map<string, Json>, k1: string, k2: string): Result<Json> {
    var inner := DictGetOr(d, k1, JObj(map[]));
    if inner.JObj? then Ok(DictGet(inner.fields, k2)) else Err(NoGet(inner))
  }

  /**
   * The value of `d.get(k1, {}).get(k2)` when it does not raise: the inner
   * field of a dict `d[k1]`, and null when `k1` is absent.
   */
  function NestedValue(d: map<string, Json>, k1: string, k2: string): Json {
    if k1 in d && d[k1].JObj? then DictGet(d[k1].fields, k2) else JNull
  }

  /** `str(e)` of the TypeError raised by `key in v` on a non-container. */
  function NotIterable(v: Json): string {
    "argument of type '" + TypeName(v) + "' is not iterable"
  }

  /** `needle` occurs contiguously in `hay` (Python's `needle in hay` on two str). */
  predicate IsSubstring(needle: string, hay: string)
    decreases |hay|
  {
    needle <= hay || (hay != [] && IsSubstring(needle, hay[1..]))
  }

  /**
   * Python `key in v` for a string `key`: a key test on a dict, an element
   * test on a list, a substring test on a str; a TypeError otherwise.
   */
  function Contains(v: Json, key: string): Result<bool> {
    match v
    case JObj(m) => Ok(key in m)
    case JArr(a) => Ok(JStr(key) in a)
    case JStr(s) => Ok(IsSubstring(key, s))
    case _ => Err(NotIterable(v))
  }

  /** Python `sep.join(parts)`. */
  function Join(sep: string, parts: seq<string>): string
    decreases |parts|
  {
    if parts == [] then ""
    else if |parts| == 1 then parts[0]
    else parts[0] + sep + Join(sep, parts[1..])
  }
}
