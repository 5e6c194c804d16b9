/**
 * Decoded JSON documents as the pipeline sees them: Python's `None`, `bool`,
 * `int`, `str`, `list` and `dict`. A Python `dict` is an insertion-ordered
 * association list (module Dict). Numbers are integers only.
 */
module Json {
  import opened Wrappers
  import Dict

  datatype Json =
    | JNull
    | JBool(b: bool)
    | JNum(n: int)
    | JStr(s: string)
    | JArr(items: seq<Json>)
    | JObj(fields: seq<(string, Json)>)

  /** A record: the fields of a JSON object. */
  type Object = seq<(string, Json)>

  /** Python's `bool(x)`. */
  predicate Truthy(j: Json) {
    match j
    case JNull => false
    case JBool(b) => b
    case JNum(n) => n != 0
    case JStr(s) => s != ""
    case JArr(a) => a != []
    case JObj(f) => f != []
  }

  /** `a or b` */
  function Or(a: Json, b: Json): (r: Json)
    ensures Truthy(a) ==> r == a
    ensures !Truthy(a) ==> r == b
  {
    if Truthy(a) then a else b
  }

  predicate HasKey(o: Object, k: string) {
    k in Dict.Keys(o)
  }

  /** `o.get(k)`: a missing key reads as `None`. */
  function Field(o: Object, k: string): Json {
    Dict.GetOr(o, k, JNull)
  }

  /** `o.get(k, default)` */
  function FieldOr(o: Object, k: string, default: Json): (r: Json)
    ensures HasKey(o, k) ==> r == Field(o, k)
    ensures !HasKey(o, k) ==> r == default
  {
    Dict.GetSome(o, k);
    Dict.GetOr(o, k, default)
  }

  /** `isinstance(j, dict) and 'error' in j` */
  predicate IsErrorObject(j: Json) {
    j.JObj? && HasKey(j.fields, "error")
  }

  /** The values Python can use as a dictionary key: anything but a list or a dict. */
  predicate Hashable(j: Json) {
    !j.JArr? && !j.JObj?
  }
}
