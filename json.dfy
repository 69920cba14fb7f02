/**
 * JSON values as the Python service receives them after `request.json()`,
 * and the few pieces of Python semantics the slide planner relies on:
 * truthiness, `d[key]`, `d.get(key, default)` and iteration with `for`.
 */
module PyJson {

  /** A decoded JSON value: `None`, `bool`, `int`/`float`, `str`, `list` or `dict`. */
  datatype Json =
    | JNull
    | JBool(b: bool)
    | JNum(n: real)
    | JStr(s: string)
    | JArr(items: seq<Json>)
    | JObj(fields: map<string, Json>)

  /** The Python exceptions the planner can raise. `UnidentifiedImageError` is the
      one python-pptx's `add_picture` lets through from PIL on a file that is not an image. */
  datatype PyError =
    | ValueError(msg: string)
    | KeyError(key: string)
    | TypeError
    | UnidentifiedImageError

  /** Either a value or the exception that aborted the computation. */
  datatype Result<+T> = Ok(value: T) | Err(error: PyError) {
    predicate IsFailure() { Err? }

    function PropagateFailure<U>(): Result<U>
      requires Err?
    {
      Err(error)
    }

    function Extract(): T
      requires Ok?
    {
      value
    }
  }

  /** Python's `bool(x)`: `None`, `False`, zero, and empty strings, lists and dicts are false. */
  predicate Truthy(j: Json) {
    match j
    case JNull => false
    case JBool(b) => b
    case JNum(n) => n != 0.0
    case JStr(s) => s != ""
    case JArr(items) => items != []
    case JObj(fields) => fields != map[]
  }

  /** `j[key]` with a string key: a `KeyError` on a dict without the key,
      a `TypeError` on anything that is not a dict. */
  function Index(j: Json, key: string): Result<Json> {
    match j
    case JObj(fields) => if key in fields then Ok(fields[key]) else Err(KeyError(key))
    case _ => Err(TypeError)
  }

  /** `d.get(key, default)` on a dict `d`. */
  function DictGet(fields: map<string, Json>, key: string, default: Json): Json {
    if key in fields then fields[key] else default
  }

  /** The elements `for x in j` visits, or the `TypeError` it raises.
      A string yields its one-character strings. A dict yields its keys, which are
      strings; the order of those keys is not kept by a map, so a non-empty dict is
      given as the `TypeError` that subscripting its first key with a string raises
      in every caller here. */
  function Iter(j: Json): Result<seq<Json>> {
    match j
    case JArr(items) => Ok(items)
    case JStr(s) => Ok(seq(|s|, i requires 0 <= i < |s| => JStr([s[i]])))
    case JObj(fields) => if fields == map[] then Ok([]) else Err(TypeError)
    case _ => Err(TypeError)
  }
}
