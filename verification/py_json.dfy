/** The decoded JSON payload of the weather archive, as `response.json()`
    hands it to Python, and the three Python operations the weather code
    applies to it: `v[key]`, `v[i]` and `len(v)`, each with the exception it
    raises on a value of the wrong shape. JSON booleans are not modelled. */
module PyJson {
  import opened Wrappers

  datatype Json =
    | JNull
    | JNum(num: real)
    | JStr(str: string)
    | JArr(items: seq<Json>)
    | JObj(fields: map<string, Json>)

  /** The Python exception classes that reading a payload can raise. */
  datatype PyError = KeyError | TypeError | IndexError

  /** `v[key]` with a `str` key: a dict lookup; any other value raises. */
  function GetKey(v: Json, key: string): (r: Result<Json, PyError>)
    ensures r.Success? <==> v.JObj? && key in v.fields
    ensures r.Success? ==> r.value == v.fields[key]
    ensures r.Failure? ==> r.error == (if v.JObj? then KeyError else TypeError)
  {
    match v
    case JObj(m) => if key in m then Success(m[key]) else Failure(KeyError)
    case _ => Failure(TypeError)
  }

  /** `v[i]` with a non-negative `int` index. A list or a string is indexed; a
      dict is looked up with the integer as key, which no JSON object (whose
      keys are strings) holds. */
  function GetIndex(v: Json, i: nat): (r: Result<Json, PyError>)
    ensures v.JArr? ==> (r.Success? <==> i < |v.items|)
    ensures v.JArr? && i < |v.items| ==> r.value == v.items[i]
    ensures v.JObj? ==> r == Failure(KeyError)
    ensures v.JNull? || v.JNum? ==> r == Failure(TypeError)
  {
    match v
    case JArr(xs) => if i < |xs| then Success(xs[i]) else Failure(IndexError)
    case JStr(s) => if i < |s| then Success(JStr([s[i]])) else Failure(IndexError)
    case JObj(_) => Failure(KeyError)
    case _ => Failure(TypeError)
  }

  /** `len(v)`: defined on lists, strings and dicts only. */
  function Len(v: Json): (r: Result<nat, PyError>)
    ensures r.Success? <==> v.JArr? || v.JStr? || v.JObj?
    ensures v.JArr? ==> r.value == |v.items|
  {
    match v
    case JArr(xs) => Success(|xs|)
    case JStr(s) => Success(|s|)
    case JObj(m) => Success(|m|)
    case _ => Failure(TypeError)
  }
}
