/** JSON trees as the decoder and the checkpoint see them, with the Python coercions
    applied to them. */
module Json {
  import opened Text

  datatype Json =
    | JNull
    | JBool(flag: bool)
    | JInt(num: int)
    | JReal(frac: real)
    | JStr(text: string)
    | JArr(items: seq<Json>)
    | JObj(fields: map<string, Json>)

  /** `dict.get(key)`: a missing key reads as null. */
  function Get(fields: map<string, Json>, key: string): Json {
    if key in fields then fields[key] else JNull
  }

  /** Truthiness. */
  predicate Truthy(j: Json) {
    match j
    case JNull => false
    case JBool(b) => b
    case JInt(i) => i != 0
    case JReal(r) => r != 0.0
    case JStr(s) => s != ""
    case JArr(items) => items != []
    case JObj(fields) => fields != map[]
  }

  /** `str(value)`. Floats and containers render as fixed text. */
  function Str(j: Json): string {
    match j
    case JNull => "None"
    case JBool(b) => if b then "True" else "False"
    case JInt(i) => IntText(i)
    case JReal(_) => "<float>"
    case JStr(s) => s
    case JArr(_) => "<list>"
    case JObj(_) => "<dict>"
  }

  /** `isinstance(value, int)`, which admits booleans as 0 and 1. */
  function Integer(j: Json): Option<int> {
    match j
    case JInt(i) => Some(i)
    case JBool(b) => Some(if b then 1 else 0)
    case _ => None
  }

  /** Whether a set-membership test on the value is defined. */
  predicate Hashable(j: Json) {
    !j.JArr? && !j.JObj?
  }

  function OptText(o: Option<string>): Json {
    match o
    case None => JNull
    case Some(s) => JStr(s)
  }

  lemma TruthyText(j: Json)
    requires Truthy(j)
    ensures Str(j) != ""
  {
  }

  /** Values that say nothing, one by one. */
  predicate Void(j: Json) {
    j in {JNull, JBool(false), JInt(0), JReal(0.0), JStr(""), JArr([]), JObj(map[])}
  }

  lemma VoidIsFalsy(j: Json)
    ensures Void(j) <==> !Truthy(j)
  {
  }
}
