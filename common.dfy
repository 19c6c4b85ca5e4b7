/** Values shared by every module of the model: optional values, results of
    backend calls, and the JSON payloads the site stores and sends. */
module Common {

  datatype Option<+T> = None | Some(value: T)

  /** What an awaited backend call produces: its data, or the error it threw. */
  datatype Result<+T> = Ok(value: T) | Err(error: string)

  /** A JSON value as the browser sees it after `JSON.parse`.  Numbers are
      modelled as integers (the site only stores counts and ids). */
  datatype Json =
    | JNull
    | JBool(b: bool)
    | JNum(n: int)
    | JStr(s: string)
    | JArr(items: seq<Json>)
    | JObj(fields: map<string, Json>)

  /** JavaScript truthiness of a JSON value: `null`, `false`, `0` and `''`
      are falsy, every array and object (even an empty one) is truthy. */
  predicate Truthy(j: Json)
  {
    match j
    case JNull => false
    case JBool(b) => b
    case JNum(n) => n != 0
    case JStr(s) => s != ""
    case JArr(_) => true
    case JObj(_) => true
  }

  /** `a || b` on two strings: the first one unless it is empty. */
  function OrElse(a: string, b: string): string
  {
    if a != "" then a else b
  }

  /** `x || null` on a string: the empty string becomes `null`. */
  function EmptyToNull(s: string): Option<string>
  {
    if s == "" then None else Some(s)
  }
}
