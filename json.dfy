// JSON documents as Python's `json` module hands them over: objects keep the
// order of their keys (an association list whose keys are taken as distinct).
module JsonValues {
  import opened Wrappers

  datatype Json =
    | JNull
    | JBool(b: bool)
    | JNum(n: real)
    | JStr(s: string)
    | JArr(items: seq<Json>)
    | JObj(fields: seq<(string, Json)>)

  /** Python truthiness: `None`, `False`, `0`, `""`, `[]` and `{}` are false. */
  predicate Truthy(j: Json)
  {
    match j
    case JNull => false
    case JBool(b) => b
    case JNum(n) => n != 0.0
    case JStr(s) => s != ""
    case JArr(a) => a != []
    case JObj(f) => f != []
  }

  predicate HasKey(fields: seq<(string, Json)>, k: string)
  {
    exists i :: 0 <= i < |fields| && fields[i].0 == k
  }

  /** `d[k]` on a dict; `None` stands for `KeyError`. */
  function Lookup(fields: seq<(string, Json)>, k: string): (r: Option<Json>)
    ensures r.None? <==> !HasKey(fields, k)
    ensures r.Some? ==> exists i :: 0 <= i < |fields| && fields[i] == (k, r.value)
  {
    if fields == [] then None
    else if fields[0].0 == k then Some(fields[0].1)
    else
      var r := Lookup(fields[1..], k);
      assert r.Some? ==> exists i :: 0 <= i < |fields[1..]| && fields[1..][i] == (k, r.value);
      assert HasKey(fields, k) ==> HasKey(fields[1..], k) by {
        if HasKey(fields, k) {
          var i :| 0 <= i < |fields| && fields[i].0 == k;
          assert i > 0 && fields[1..][i - 1].0 == k;
        }
      }
      r
  }

  /** `d.get(k, default)` on a dict. */
  function Get(fields: seq<(string, Json)>, k: string, default: Json): (r: Json)
    ensures !HasKey(fields, k) ==> r == default
    ensures HasKey(fields, k) ==> Lookup(fields, k) == Some(r)
  {
    match Lookup(fields, k)
    case Some(v) => v
    case None => default
  }

  /** A JSON value used where Python adds or compares numbers: `bool` counts as `int`;
      anything else raises `TypeError` (`None`). */
  function AsNumber(j: Json): (r: Option<real>)
    ensures j.JNum? ==> r == Some(j.n)
    ensures !j.JNum? && !j.JBool? ==> r.None?
  {
    match j
    case JNum(n) => Some(n)
    case JBool(b) => Some(if b then 1.0 else 0.0)
    case _ => None
  }
}
