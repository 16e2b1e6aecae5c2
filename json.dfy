/**
 * JSON values as the Python runtime sees them after `json.loads`, with
 * Python's truthiness and `dict.get` defaulting. Objects are maps; the
 * order in which a dict was filled is not modelled.
 */
module Json {
  import opened Strs

  datatype Json =
    | JNull
    | JBool(b: bool)
    | JInt(i: int)
    | JStr(s: string)
    | JArr(items: seq<Json>)
    | JObj(fields: map<string, Json>)

  type Dict = map<string, Json>

  /** Python's `bool(value)`. */
  predicate Truthy(j: Json)
  {
    match j
    case JNull => false
    case JBool(b) => b
    case JInt(i) => i != 0
    case JStr(s) => s != ""
    case JArr(a) => |a| > 0
    case JObj(m) => |m| > 0
  }

  /** Python's `d.get(key, default)`. */
  function Get(d: Dict, key: string, default: Json): (r: Json)
    ensures key in d ==> r == d[key]
    ensures key !in d ==> r == default
  { if key in d then d[key] else default }

  /** The text of a JSON string value, and "" for anything else. */
  function TextOf(j: Json): (r: string)
    ensures j.JStr? ==> r == j.s
    ensures !j.JStr? ==> r == ""
  { if j.JStr? then j.s else "" }

  /** A list of strings as JSON. */
  function Texts(ss: seq<string>): (r: seq<Json>)
    ensures |r| == |ss| && forall k :: 0 <= k < |ss| ==> r[k] == JStr(ss[k])
  {
    if ss == [] then [] else [JStr(ss[0])] + Texts(ss[1..])
  }

  /** Python's `str()` of a decoded JSON value (also what an f-string shows); `show` is
      its rendering of a list or dict. */
  function Str(j: Json, show: Json -> string): (r: string)
    ensures j.JStr? ==> r == j.s
  {
    match j
    case JNull => "None"
    case JBool(b) => if b then "True" else "False"
    case JInt(i) => IntToString(i)
    case JStr(s) => s
    case _ => show(j)
  }

  /** `d.get(key, default)` on a value that should be a dict; on anything else the source
      raises, and the model reads the default. */
  function Field(d: Json, key: string, default: Json): Json
  {
    if d.JObj? then Get(d.fields, key, default) else default
  }

  /** The items of a value the source iterates as a list. */
  function Items(j: Json): seq<Json>
  {
    if j.JArr? then j.items else []
  }

  /** The name Python gives the type of a decoded JSON value. */
  function PyTypeName(j: Json): string
  {
    match j
    case JNull => "NoneType"
    case JBool(_) => "bool"
    case JInt(_) => "int"
    case JStr(_) => "str"
    case JArr(_) => "list"
    case JObj(_) => "dict"
  }
}
