/** Structured values: what a JSON document holds before it is pretty-printed. */
module Json {

  import opened Wrappers

  /** A JSON value. Objects keep their keys in insertion order, as Ruby hashes do. */
  datatype Value =
    | Str(s: string)
    | Int(i: int)
    | Bool(b: bool)
    | List(items: seq<Value>)
    | Obj(fields: seq<(string, Value)>)

  /** The keys of an object's fields, in order. */
  function Keys(fields: seq<(string, Value)>): (ks: seq<string>)
    ensures |ks| == |fields|
    ensures forall i :: 0 <= i < |fields| ==> ks[i] == fields[i].0
  {
    if fields == [] then [] else [fields[0].0] + Keys(fields[1..])
  }

  /** Appending a field appends its key. */
  lemma KeysAppend(fields: seq<(string, Value)>, f: (string, Value))
    ensures Keys(fields + [f]) == Keys(fields) + [f.0]
  {
    var all := fields + [f];
    assert forall i :: 0 <= i < |fields| ==> all[i] == fields[i];
  }

  /** The value stored under the first field named `k`, as Ruby's `Hash#[]` reads it. */
  function Lookup(fields: seq<(string, Value)>, k: string): (r: Option<Value>)
    ensures r.None? <==> k !in Keys(fields)
    ensures r.Some? ==> (k, r.value) in fields
  {
    if fields == [] then None
    else if fields[0].0 == k then Some(fields[0].1)
    else Lookup(fields[1..], k)
  }

  /** No key occurs twice: true of every Ruby hash. */
  predicate UniqueKeys(fields: seq<(string, Value)>)
  {
    forall i, j :: 0 <= i < j < |fields| ==> fields[i].0 != fields[j].0
  }

  /** An object has unique keys when its first key is not among the rest and the rest are unique. */
  lemma UniqueKeysCons(f: (string, Value), rest: seq<(string, Value)>)
    ensures UniqueKeys([f] + rest) <==> f.0 !in Keys(rest) && UniqueKeys(rest)
  {
    var all := [f] + rest;
    assert forall i :: 0 <= i < |rest| ==> all[i + 1] == rest[i];
    if f.0 in Keys(rest) {
      var i :| 0 <= i < |rest| && Keys(rest)[i] == f.0;
      assert all[0].0 == all[i + 1].0;
    }
    if UniqueKeys(all) {
      forall i, j | 0 <= i < j < |rest| ensures rest[i].0 != rest[j].0 {
        assert all[i + 1].0 != all[j + 1].0;
      }
    }
  }
}
