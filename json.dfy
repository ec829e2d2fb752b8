/**
  The part of serde_json that the schema manager and the traffic generator
  rely on: a JSON value, and an object map whose entries are kept in the
  map's own iteration order.
 */
module Json {
  import opened Wrappers

  /** A parsed JSON value. Numbers are kept as integers. */
  datatype Value =
    | Null
    | Bool(b: bool)
    | Number(n: int)
    | String(s: string)
    | Array(items: seq<Value>)
    | Object(members: Map)

  /** A JSON object: its (key, value) entries in iteration order. */
  type Map = seq<(string, Value)>

  /** The keys of a map, in iteration order (`map.keys().collect()`). */
  function Keys(m: Map): (ks: seq<string>)
    ensures |ks| == |m|
    ensures forall i :: 0 <= i < |m| ==> ks[i] == m[i].0
  {
    seq(|m|, i requires 0 <= i < |m| => m[i].0)
  }

  /** No key occurs twice, as in every parsed object. */
  predicate UniqueKeys(m: Map)
  {
    forall i, j :: 0 <= i < j < |m| ==> m[i].0 != m[j].0
  }

  /** The value stored under `key`, if any (the first entry with that key). */
  function Lookup(m: Map, key: string): (r: Option<Value>)
    ensures r.Some? <==> exists i :: 0 <= i < |m| && m[i].0 == key
    ensures r.Some? ==> exists i :: 0 <= i < |m| && m[i] == (key, r.value)
  {
    if m == [] then None
    else if m[0].0 == key then Some(m[0].1)
    else
      var r := Lookup(m[1..], key);
      assert r.Some? ==> exists i :: 0 <= i < |m[1..]| && m[1..][i] == (key, r.value);
      assert forall i :: 1 <= i < |m| ==> m[i] == m[1..][i - 1];
      r
  }

  /** In a map with unique keys, looking up the i-th key finds the i-th value. */
  lemma {:induction false} LookupAt(m: Map, i: nat)
    requires UniqueKeys(m)
    requires i < |m|
    ensures Lookup(m, m[i].0) == Some(m[i].1)
  {
    if i > 0 {
      assert m[0].0 != m[i].0;
      assert m[1..][i - 1] == m[i];
      LookupAt(m[1..], i - 1);
    }
  }
}
