/**
 * JSON-like values: what `to_dict` methods produce and what the tunnel
 * daemon and device listing return. Objects are association lists in
 * insertion order, as Python dictionaries iterate.
 */
module Json {
  import opened Wrappers

  datatype Value =
    | Null
    | Bool(b: bool)
    | Int(i: int)
    | Real(r: real)
    | Str(s: string)
    | Arr(items: seq<Value>)
    | Obj(fields: seq<(string, Value)>)

  /** Python truthiness: `None`, `False`, zero, and empty strings, lists and dicts are falsy. */
  predicate Truthy(v: Value)
  {
    match v
    case Null => false
    case Bool(b) => b
    case Int(i) => i != 0
    case Real(r) => r != 0.0
    case Str(s) => s != ""
    case Arr(items) => items != []
    case Obj(fields) => fields != []
  }

  /** `d.get(key)` on an association list: the value of the first entry with that key. */
  function Get(fields: seq<(string, Value)>, key: string): (r: Option<Value>)
    ensures r.None? <==> forall i :: 0 <= i < |fields| ==> fields[i].0 != key
    ensures r.Some? ==> exists i :: 0 <= i < |fields| && fields[i] == (key, r.value)
  {
    if |fields| == 0 then None
    else if fields[0].0 == key then Some(fields[0].1)
    else Get(fields[1..], key)
  }

  /** Looking up a key finds the entry at its first position. */
  lemma {:induction false} GetAt(fields: seq<(string, Value)>, i: nat)
    requires i < |fields|
    requires forall j :: 0 <= j < i ==> fields[j].0 != fields[i].0
    ensures Get(fields, fields[i].0) == Some(fields[i].1)
  {
    if i > 0 {
      GetAt(fields[1..], i - 1);
    }
  }

  /** The keys of an object, in order. */
  function Keys(fields: seq<(string, Value)>): (ks: seq<string>)
    ensures |ks| == |fields|
    ensures forall i :: 0 <= i < |fields| ==> ks[i] == fields[i].0
  {
    if |fields| == 0 then [] else [fields[0].0] + Keys(fields[1..])
  }

  /** `d.get(key)` is present and truthy. */
  predicate TruthyAt(fields: seq<(string, Value)>, key: string)
  {
    var v := Get(fields, key);
    v.Some? && Truthy(v.value)
  }

  /**
   * `d.get(k1) or d.get(k2) or ...` as far as it matters to the `if` that
   * follows it: the first truthy value, or nothing when every one is falsy
   * or absent.
   */
  function FirstTruthy(fields: seq<(string, Value)>, keys: seq<string>): (r: Option<Value>)
    ensures r.None? <==> forall i :: 0 <= i < |keys| ==> !TruthyAt(fields, keys[i])
    ensures r.Some? ==> Truthy(r.value)
    ensures r.Some? ==>
      exists i :: 0 <= i < |keys| && Get(fields, keys[i]) == r && forall j :: 0 <= j < i ==> !TruthyAt(fields, keys[j])
  {
    if keys == [] then None
    else if TruthyAt(fields, keys[0]) then Get(fields, keys[0])
    else
      var r := FirstTruthy(fields, keys[1..]);
      assert forall i :: 1 <= i < |keys| ==> keys[i] == keys[1..][i - 1];
      r
  }
}
