/**
 * JSON values as the handlers see them after the driver or `json.loads` has decoded them.
 * Numbers are integers: no handler in the model computes with a fractional JSON number.
 */
module Json {
  import opened Wrappers

  /** An object keeps its members in document order; duplicate keys are allowed, as in the text. */
  datatype Json =
    | JNull
    | JBool(b: bool)
    | JNum(n: int)
    | JStr(s: string)
    | JArr(items: seq<Json>)
    | JObj(fields: seq<(string, Json)>)

  /** Python truthiness of the decoded value (`if x:`, `not x`). */
  predicate Truthy(j: Json)
  {
    match j
    case JNull => false
    case JBool(b) => b
    case JNum(n) => n != 0
    case JStr(s) => s != ""
    case JArr(items) => items != []
    case JObj(fields) => fields != []
  }

  /** True when `key` is the key of the member at index i. */
  predicate KeyAt(fields: seq<(string, Json)>, key: string, i: int)
  {
    0 <= i < |fields| && fields[i].0 == key
  }

  /**
   * `d.get(key)` on a decoded object: `json.loads` keeps the LAST of duplicate members,
   * so the lookup answers the value of the last member with that key.
   */
  function Lookup(fields: seq<(string, Json)>, key: string): (r: Option<Json>)
    ensures r.None? <==> forall i :: 0 <= i < |fields| ==> !KeyAt(fields, key, i)
    ensures r.Some? ==> exists i :: KeyAt(fields, key, i) && fields[i].1 == r.value
                                    && forall j :: i < j < |fields| ==> !KeyAt(fields, key, j)
  {
    if fields == [] then None
    else
      var n := |fields| - 1;
      if fields[n].0 == key then assert KeyAt(fields, key, n); Some(fields[n].1)
      else
        var r := Lookup(fields[..n], key);
        assert forall i :: 0 <= i < n ==> (KeyAt(fields[..n], key, i) <==> KeyAt(fields, key, i));
        assert !KeyAt(fields, key, n);
        r
  }

  /** `d.get(key, default)`. */
  function GetOr(fields: seq<(string, Json)>, key: string, default: Json): Json
  {
    match Lookup(fields, key)
    case Some(v) => v
    case None => default
  }

  /**
   * The values a Python `for x in v` loop visits: a list's items, an object's keys, a string's
   * characters; None for a value that is not iterable (numbers, booleans, null), where the loop raises.
   * Duplicate object keys would be visited once in Python; only whether the loop visits
   * anything, and that every key is a string, matters to the model.
   */
  function Iterate(j: Json): (r: Option<seq<Json>>)
    ensures r.Some? <==> (j.JArr? || j.JObj? || j.JStr?)
    ensures j.JArr? ==> r == Some(j.items)
    ensures j.JObj? ==> r.Some? && |r.value| == |j.fields| && forall x :: x in r.value ==> x.JStr?
    ensures j.JObj? ==> forall i :: 0 <= i < |j.fields| ==> r.value[i] == JStr(j.fields[i].0)
    ensures j.JStr? ==> r.Some? && |r.value| == |j.s| && forall x :: x in r.value ==> x.JStr?
    ensures j.JStr? ==> forall i :: 0 <= i < |j.s| ==> r.value[i] == JStr([j.s[i]])
  {
    match j
    case JArr(items) => Some(items)
    case JObj(fields) => Some(seq(|fields|, i requires 0 <= i < |fields| => JStr(fields[i].0)))
    case JStr(s) => Some(seq(|s|, i requires 0 <= i < |s| => JStr([s[i]])))
    case _ => None
  }
}
