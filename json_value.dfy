/** Decoded JSON values as the webhook handler sees them: the Python objects
    that a JSON decode yields, with Python's truthiness and `value[key]`
    subscripting, and the exceptions the handler lets escape. */
module JsonValue {

  /** A decoded JSON document. Objects are string-keyed dictionaries. */
  datatype Json =
    | JNull
    | JBool(b: bool)
    | JNum(n: real)
    | JStr(s: string)
    | JArr(items: seq<Json>)
    | JObj(fields: map<string, Json>)

  /** Python truthiness (`not data` is `!Truthy(data)`): None, False, zero,
      the empty string, the empty list and the empty dictionary are false. */
  predicate Truthy(j: Json) {
    match j
    case JNull => false
    case JBool(b) => b
    case JNum(n) => n != 0.0
    case JStr(s) => s != ""
    case JArr(items) => items != []
    case JObj(fields) => fields != map[]
  }

  /** The exceptions that escape the handler: a missing dictionary key, a
      string subscript on something that is not a dictionary, and a failing
      whole-body JSON decode. */
  datatype Fault =
    | KeyError(key: string)
    | TypeError
    | BodyDecodeError

  /** A computation that either yields a value or raises a fault. */
  datatype Result<T> = Ok(value: T) | Err(fault: Fault) {
    predicate IsFailure() {
      Err?
    }

    function PropagateFailure<U>(): Result<U>
      requires Err?
    {
      Err(fault)
    }

    function Extract(): T
      requires Ok?
    {
      value
    }
  }

  /** Python `d[key]` on a dictionary. */
  function Get(d: map<string, Json>, key: string): Result<Json> {
    if key in d then Ok(d[key]) else Err(KeyError(key))
  }

  /** Python `j[key]` with a string key on an arbitrary decoded value: only a
      dictionary can be subscripted by a string. */
  function Subscript(j: Json, key: string): Result<Json> {
    match j
    case JObj(fields) => Get(fields, key)
    case _ => Err(TypeError)
  }

  /** `j` is a dictionary that holds `key`, so `j[key]` does not raise. */
  predicate HasField(j: Json, key: string) {
    j.JObj? && key in j.fields
  }
}
