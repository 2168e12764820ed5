/** Semi-structured values as the scripts receive them from `response.json()`
    and `json.loads`: null, booleans, numbers, strings, lists and objects whose
    fields keep their order. */
module Json {
  import opened Common

  datatype Value =
    | Null
    | Bool(b: bool)
    | Num(n: real)
    | Str(s: string)
    | Arr(items: seq<Value>)
    | Obj(fields: seq<(string, Value)>)

  /** The value stored under `key` in an object's fields. When a key occurs
      more than once the last entry wins, as it does for `json.loads`. */
  function Field(fields: seq<(string, Value)>, key: string): (r: Option<Value>)
    ensures r.Some? <==> exists i :: 0 <= i < |fields| && fields[i].0 == key
    ensures r.Some? ==> exists i :: 0 <= i < |fields| && fields[i] == (key, r.value)
  {
    if fields == [] then None
    else
      var n := |fields| - 1;
      if fields[n].0 == key then Some(fields[n].1)
      else
        var r := Field(fields[..n], key);
        assert forall i :: 0 <= i < n ==> fields[i] == fields[..n][i];
        r
  }

  /** `isinstance(v, dict) and key in v` */
  predicate HasKey(v: Value, key: string) {
    v.Obj? && Field(v.fields, key).Some?
  }

  /** `v.get(key)` on a dictionary; `None` for a missing key. */
  function Get(v: Value, key: string): (r: Option<Value>)
    requires v.Obj?
    ensures r.Some? <==> HasKey(v, key)
  {
    Field(v.fields, key)
  }

  /** Python truthiness of a decoded JSON value. */
  predicate ValueTruthy(v: Value) {
    match v
    case Null => false
    case Bool(b) => b
    case Num(n) => n != 0.0
    case Str(s) => s != ""
    case Arr(items) => items != []
    case Obj(fields) => fields != []
  }
}
