/**
  JSON documents as the gateway returns them and as the chat client reads
  them back (`.json()`).  Objects keep their keys in insertion order, as a
  Python dict does.  Numbers are integers only.
 */
module Json {
  import opened Wrappers

  datatype Value =
    | JNull
    | JBool(b: bool)
    | JNum(n: int)
    | JStr(s: string)
    | JArr(items: seq<Value>)
    | JObj(fields: seq<(string, Value)>)

  /** The value stored under `key` in a list of object members (the first one, if repeated). */
  function Lookup(fields: seq<(string, Value)>, key: string): Option<Value>
  {
    if fields == [] then None
    else if fields[0].0 == key then Some(fields[0].1)
    else Lookup(fields[1..], key)
  }

  predicate DistinctKeys(fields: seq<(string, Value)>)
  {
    forall a, b :: 0 <= a < b < |fields| ==> fields[a].0 != fields[b].0
  }

  /** In an object whose keys are pairwise distinct, member `i`'s key finds member `i`. */
  lemma {:induction false} LookupDistinct(fields: seq<(string, Value)>, i: nat)
    requires DistinctKeys(fields) && i < |fields|
    ensures Lookup(fields, fields[i].0) == Some(fields[i].1)
  {
    if i > 0 {
      assert fields[0].0 != fields[i].0;
      assert fields[1..][i - 1] == fields[i];
      LookupDistinct(fields[1..], i - 1);
    }
  }

  /** `obj[key]` for an object, `None` when `v` is not an object or has no such key. */
  function Field(v: Value, key: string): Option<Value>
  {
    if v.JObj? then Lookup(v.fields, key) else None
  }

  /** The number of members of an object; 0 for anything else. */
  function Size(v: Value): nat
  {
    if v.JObj? then |v.fields| else 0
  }
}
