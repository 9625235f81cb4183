/** A parsed JSON document as `json.loads` returns it, and the few Python
    operations the parsers apply to such values. Objects keep their keys in
    document order with no key twice, as a Python `dict` does. */
module JsonModel {
  import opened Wrappers
  import opened Dicts

  datatype Json =
    | JNull
    | JBool(b: bool)
    | JNum(n: real)
    | JStr(s: string)
    | JArr(items: seq<Json>)
    | JObj(fields: Dict<Json>)

  /** Python truthiness of a JSON value. */
  predicate Truthy(j: Json)
  {
    match j
    case JNull => false
    case JBool(b) => b
    case JNum(n) => n != 0.0
    case JStr(s) => s != ""
    case JArr(xs) => xs != []
    case JObj(fs) => fs != []
  }

  /** `float(v)`: numbers and booleans convert, a string converts when the
      string parser accepts it, anything else raises (`None`). */
  function FloatOf(j: Json, parse: string -> Option<real>): (r: Option<real>)
    ensures j.JNum? ==> r == Some(j.n)
    ensures j.JNull? || j.JArr? || j.JObj? ==> r.None?
    ensures j.JStr? ==> r == parse(j.s)
  {
    match j
    case JNum(n) => Some(n)
    case JBool(b) => Some(if b then 1.0 else 0.0)
    case JStr(s) => parse(s)
    case _ => None
  }

  /** `v.get(key, default)`: raises (`Err`) unless `v` is an object. */
  function GetOr(j: Json, key: string, default: Json): (r: Result<Json>)
    ensures r.Ok? <==> j.JObj?
    ensures j.JObj? && HasKey(j.fields, key) ==> r == Ok(Get(j.fields, key))
    ensures j.JObj? && !HasKey(j.fields, key) ==> r == Ok(default)
  {
    match j
    case JObj(fs) => Ok(if HasKey(fs, key) then Get(fs, key) else default)
    case _ => Err("object has no attribute 'get'")
  }

  /** A text field: the string itself, or "" for a value that is not one. */
  function TextOf(j: Json): (r: string)
    ensures j.JStr? ==> r == j.s
    ensures !j.JStr? ==> r == ""
  {
    if j.JStr? then j.s else ""
  }

  /** What `for x in v` visits: the items of an array, the keys of an
      object, the one-character strings of a string; other values raise. */
  function Items(j: Json): (r: Result<seq<Json>>)
    ensures r.Ok? <==> j.JArr? || j.JObj? || j.JStr?
    ensures j.JArr? ==> r == Ok(j.items)
    ensures j.JObj? ==> |r.value| == |j.fields| && forall i :: 0 <= i < |j.fields| ==> r.value[i] == JStr(j.fields[i].0)
    ensures j.JStr? ==> |r.value| == |j.s| && forall i :: 0 <= i < |j.s| ==> r.value[i] == JStr([j.s[i]])
  {
    match j
    case JArr(xs) => Ok(xs)
    case JObj(fs) => Ok(seq(|fs|, i requires 0 <= i < |fs| => JStr(fs[i].0)))
    case JStr(s) => Ok(seq(|s|, i requires 0 <= i < |s| => JStr([s[i]])))
    case _ => Err("object is not iterable")
  }
}
