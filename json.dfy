/** JSON values as Python's `json` module hands them to the vCon record, with the
    two pieces of Python semantics the record relies on: truth values and `dict.get`. */
module JsonValues {

  /** A JSON value. Numbers are integers only; Python's floats are not modelled.
      `JNull` also stands for Python's `None`. */
  datatype Json =
    | JNull
    | JBool(b: bool)
    | JNum(n: int)
    | JStr(s: string)
    | JArr(items: seq<Json>)
    | JObj(fields: map<string, Json>)

  /** Python's truth value of a loaded JSON value: None, False, 0, "", [] and {} are false. */
  predicate Truthy(j: Json) {
    match j
    case JNull => false
    case JBool(b) => b
    case JNum(n) => n != 0
    case JStr(s) => s != ""
    case JArr(xs) => xs != []
    case JObj(m) => m != map[]
  }

  /** `m.get(k)`: the value stored under `k`, or None when `k` is absent. */
  function Get(m: map<string, Json>, k: string): Json {
    if k in m then m[k] else JNull
  }

  /** The number `0 + j` adds in Python, if any: ints as themselves, bools as 0 or 1. */
  function AsNumber(j: Json): Option<int> {
    match j
    case JNum(n) => Some(n)
    case JBool(b) => Some(if b then 1 else 0)
    case _ => None
  }

  datatype Option<T> = None | Some(value: T)
}
