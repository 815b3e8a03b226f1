/**
 * A parsed JSON request body as the webhook receiver sees it (Python dicts,
 * lists, strings, ints, booleans and None), and the few Python operations the
 * receiver applies to it: subscription, `dict.get`, truthiness and `str()`.
 */
module Json {
  import opened Wrappers
  import Numerals

  datatype Json =
    | JNull
    | JBool(b: bool)
    | JNum(n: int)
    | JStr(s: string)
    | JArr(items: seq<Json>)
    | JObj(fields: map<string, Json>)

  /**
   * `j[key]`: raises (None here) unless `j` is a dict that holds `key`; a
   * string key on a list, a string or None raises a TypeError in Python.
   */
  function Subscript(j: Json, key: string): (r: Option<Json>)
    ensures r.Some? <==> j.JObj? && key in j.fields
    ensures r.Some? ==> r.value == j.fields[key]
  {
    match j
    case JObj(fields) => if key in fields then Some(fields[key]) else None
    case _ => None
  }

  /** `j[k0][k1]...`: raises (None) as soon as one subscription does. */
  function Path(j: Json, keys: seq<string>): (r: Option<Json>)
    ensures keys == [] ==> r == Some(j)
    ensures keys != [] && Subscript(j, keys[0]).None? ==> r.None?
    ensures keys != [] && Subscript(j, keys[0]).Some? ==>
      r == Path(Subscript(j, keys[0]).value, keys[1..])
  {
    if keys == [] then Some(j)
    else
      match Subscript(j, keys[0])
      case None => None
      case Some(child) => Path(child, keys[1..])
  }

  /** Subscribing along `a + b` is subscribing along `a`, then along `b`. */
  lemma {:induction false} PathConcat(j: Json, a: seq<string>, b: seq<string>)
    ensures Path(j, a + b) == (if Path(j, a).Some? then Path(Path(j, a).value, b) else None)
    decreases |a|
  {
    if a == [] {
      assert a + b == b;
    } else {
      var ab := a + b;
      assert ab != [] && ab[0] == a[0] && ab[1..] == a[1..] + b;
      match Subscript(j, a[0])
      case None =>
      case Some(child) =>
        PathConcat(child, a[1..], b);
    }
  }

  /**
   * `j.get(key)`: only a dict has `get` (any other value raises an
   * AttributeError, None here); a missing key gives Python's None.
   */
  function Get(j: Json, key: string): (r: Option<Json>)
    ensures r.Some? <==> j.JObj?
    ensures r.Some? && key in j.fields ==> r.value == j.fields[key]
    ensures r.Some? && key !in j.fields ==> r.value == JNull
  {
    match j
    case JObj(fields) => Some(if key in fields then fields[key] else JNull)
    case _ => None
  }

  /** On a dict, `get` agrees with subscription where that succeeds, and gives None where it raises. */
  lemma GetOnDict(j: Json, key: string)
    requires j.JObj?
    ensures Subscript(j, key).Some? ==> Get(j, key) == Subscript(j, key)
    ensures Subscript(j, key).None? ==> Get(j, key) == Some(JNull)
  {
  }

  /** Python truthiness: None, False, 0, "", [] and {} are false. */
  predicate Truthy(j: Json) {
    match j
    case JNull => false
    case JBool(b) => b
    case JNum(n) => n != 0
    case JStr(s) => s != ""
    case JArr(items) => items != []
    case JObj(fields) => fields != map[]
  }

  /**
   * Python's `str()` of a scalar: a string is itself, an int its decimal
   * form, and True, False and None their names. Containers are rendered as
   * the empty string (see README).
   */
  function PyStr(j: Json): (s: string)
    ensures j.JStr? ==> s == j.s
    ensures j.JNum? ==> s == Numerals.ShowInt(j.n)
  {
    match j
    case JStr(s) => s
    case JNum(n) => Numerals.ShowInt(n)
    case JBool(b) => if b then "True" else "False"
    case JNull => "None"
    case JArr(_) => ""
    case JObj(_) => ""
  }

  /** The text of a value that must be a `str` (pydantic refuses anything else). */
  function AsString(j: Option<Json>): (r: Option<string>)
    ensures r.Some? <==> j.Some? && j.value.JStr?
    ensures r.Some? ==> r.value == j.value.s
  {
    if j.Some? && j.value.JStr? then Some(j.value.s) else None
  }
}
