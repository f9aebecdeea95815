/** Values shared by the whole model: optional values, the end of a step of
    the program (carry on, or exit the process with a code), and the JSON
    values that the server's response bodies decode to. */
module Values {

  datatype Option<+T> = None | Some(value: T)

  /** How a step of pat_helper.py ends: it carries on, or it calls
      `sys.exit(code)`. */
  datatype Outcome = Proceed | Exit(code: int)

  /** A value, or the exit code of the failure that ends the process. */
  datatype Result<+T> = Ok(value: T) | Fail(code: int)

  /** A decoded JSON value. Numbers are integers here. */
  datatype Json =
    | JNull
    | JBool(b: bool)
    | JNum(n: int)
    | JStr(s: string)
    | JArr(items: seq<Json>)
    | JObj(members: map<string, Json>)

  /** Python's truth value of a decoded JSON value (`if not value: ...`):
      null, false, zero and every empty string, list or object are false. */
  predicate Truthy(j: Json) {
    match j
    case JNull => false
    case JBool(b) => b
    case JNum(n) => n != 0
    case JStr(s) => s != ""
    case JArr(items) => items != []
    case JObj(members) => members != map[]
  }

  /** `fields.get(key)`: a missing key reads as null (`None`). */
  function Get(fields: map<string, Json>, key: string): Json {
    if key in fields then fields[key] else JNull
  }
}
