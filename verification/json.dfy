/** The untyped JSON tree that encoding/json decodes into `interface{}`. */
module RawJson {
  import opened Results
  import opened Assoc

  /** nil, bool, float64 (modelled as an integer), string, []interface{} and
      map[string]interface{}. An object's members are an association list. */
  datatype Json =
    | Null
    | Bool(b: bool)
    | Num(n: int)
    | Str(s: string)
    | Arr(items: seq<Json>)
    | Obj(members: seq<(string, Json)>)

  /** A key that JSON-LD reserves: it starts with '@'. */
  predicate IsKeyword(k: string)
  {
    |k| > 0 && k[0] == '@'
  }

  /** A member value of an object is smaller than the object. */
  lemma MemberSmaller(m: seq<(string, Json)>, k: string)
    requires Find(m, k).Some?
    ensures Find(m, k).value < Obj(m)
  {
    assert (k, Find(m, k).value) in m;
  }
}
