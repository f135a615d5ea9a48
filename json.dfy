/** The untyped JSON tree that `encoding/json` produces for an `interface{}`
    target: `[]interface{}` becomes an array, `map[string]interface{}` an
    object whose entries are listed in the order of the one `range` loop that
    visits them (Go leaves that order unspecified, and it may differ from
    loop to loop). */
module JsonValue {
  import opened Errors

  datatype Json =
    | JNull
    | JBool(b: bool)
    | JNumber(n: real)
    | JString(s: string)
    | JArray(items: seq<Json>)
    | JObject(fields: seq<(string, Json)>)

  /** The keys of an object's entries are pairwise distinct, as they are in
      every `map[string]interface{}` that `encoding/json` produces. The JSON
      tree does not enforce it; no member here relies on repeated keys. */
  predicate UniqueKeys(fields: seq<(string, Json)>)
  {
    forall i, j :: 0 <= i < j < |fields| ==> fields[i].0 != fields[j].0
  }

  /** The entry of `fields` stored under `key` (Go's `m[key]` with the `ok`
      result). Decoded Go maps have unique keys (see LookupUnique); on a tree
      with repeated keys, which no decoding yields, the first would win. */
  function Lookup(fields: seq<(string, Json)>, key: string): (r: Option<Json>)
    ensures r.None? <==> forall i :: 0 <= i < |fields| ==> fields[i].0 != key
    ensures r.Some? ==> exists i :: 0 <= i < |fields| && fields[i] == (key, r.value)
  {
    if fields == [] then None
    else if fields[0].0 == key then Some(fields[0].1)
    else Lookup(fields[1..], key)
  }

  /** With unique keys, `Lookup` finds exactly the entries present: a key
      maps to a value precisely when that entry is in the object. */
  lemma {:induction false} LookupUnique(fields: seq<(string, Json)>, key: string, v: Json)
    requires UniqueKeys(fields)
    ensures Lookup(fields, key) == Some(v) <==> (key, v) in fields
  {
    if fields != [] {
      var rest := fields[1..];
      assert UniqueKeys(rest) by {
        forall i, j | 0 <= i < j < |rest| ensures rest[i].0 != rest[j].0 {
          assert rest[i] == fields[i + 1] && rest[j] == fields[j + 1];
        }
      }
      LookupUnique(rest, key, v);
    }
  }
}
