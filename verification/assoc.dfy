/** Association lists keyed by strings: the model of a Go `map[string]V`.
    The order of the entries stands for one of Go's (unspecified) iteration
    orders; `Put` is map assignment, which keeps an existing key in place and
    adds a new key at the end. */
module Assoc {
  import opened Results

  /** The keys of `s`, in entry order. */
  function Keys<V>(s: seq<(string, V)>): seq<string>
  {
    seq(|s|, i requires 0 <= i < |s| => s[i].0)
  }

  /** No key occurs twice, as in a Go map. */
  predicate Distinct<V>(s: seq<(string, V)>)
  {
    forall i, j :: 0 <= i < j < |s| ==> s[i].0 != s[j].0
  }

  lemma KeysCons<V>(x: (string, V), t: seq<(string, V)>)
    ensures Keys([x] + t) == [x.0] + Keys(t)
  {
    assert forall i :: 1 <= i < |t| + 1 ==> ([x] + t)[i] == t[i - 1];
  }

  /** The value stored under `k`: Go's `v, ok := m[k]`. */
  function Find<V>(s: seq<(string, V)>, k: string): (r: Option<V>)
    ensures r.Some? <==> k in Keys(s)
    ensures r.Some? ==> (k, r.value) in s
    ensures r.Some? && Distinct(s) ==> forall i :: 0 <= i < |s| && s[i].0 == k ==> s[i].1 == r.value
  {
    if |s| == 0 then None
    else
      KeysCons(s[0], s[1..]);
      assert [s[0]] + s[1..] == s;
      if s[0].0 == k then Some(s[0].1)
      else Find(s[1..], k)
  }

  /** Go's `m[k] = v`. */
  function Put<V>(s: seq<(string, V)>, k: string, v: V): (r: seq<(string, V)>)
    ensures Find(r, k) == Some(v)
    ensures forall k' :: k' != k ==> Find(r, k') == Find(s, k')
    ensures k in Keys(s) ==> Keys(r) == Keys(s)
    ensures k !in Keys(s) ==> r == s + [(k, v)]
  {
    if |s| == 0 then [(k, v)]
    else
      var head, tail := s[0], s[1..];
      assert s == [head] + tail;
      KeysCons(head, tail);
      if head.0 == k then
        KeysCons((k, v), tail);
        [(k, v)] + tail
      else
        var r := [head] + Put(tail, k, v);
        KeysCons(head, Put(tail, k, v));
        assert k !in Keys(s) ==> r == s + [(k, v)];
        r
  }

  /** In a map with distinct keys, the key at position `i` finds the value at `i`. */
  lemma FindAt<V>(s: seq<(string, V)>, i: int)
    requires Distinct(s) && 0 <= i < |s|
    ensures Find(s, s[i].0) == Some(s[i].1)
  {
    assert Keys(s)[i] == s[i].0;
  }

  /** A key held by no pair is not found. */
  lemma FindAbsent<V>(s: seq<(string, V)>, k: string)
    requires forall i :: 0 <= i < |s| ==> s[i].0 != k
    ensures Find(s, k) == None
  {
    assert forall i :: 0 <= i < |s| ==> Keys(s)[i] == s[i].0;
  }

  /** Map assignment keeps the keys distinct. */
  lemma {:induction false} PutDistinct<V>(s: seq<(string, V)>, k: string, v: V)
    requires Distinct(s)
    ensures Distinct(Put(s, k, v))
  {
    if k in Keys(s) {
      var r := Put(s, k, v);
      assert Keys(r) == Keys(s);
      forall i, j | 0 <= i < j < |r| ensures r[i].0 != r[j].0 {
        assert Keys(r)[i] == Keys(s)[i] && Keys(r)[j] == Keys(s)[j];
      }
    } else {
      forall i | 0 <= i < |s| ensures s[i].0 != k {
        assert Keys(s)[i] == s[i].0;
      }
    }
  }

  /** Go's sequence of assignments `m[k1] = v1; m[k2] = v2; ...`. */
  function PutAll<V>(s: seq<(string, V)>, pairs: seq<(string, V)>): (r: seq<(string, V)>)
    decreases |pairs|
  {
    if |pairs| == 0 then s
    else PutAll(Put(s, pairs[0].0, pairs[0].1), pairs[1..])
  }

  /** Assigning keys that are all new, in order, appends them in order. */
  lemma {:induction false} PutAllFresh<V>(s: seq<(string, V)>, pairs: seq<(string, V)>)
    requires Distinct(s + pairs)
    ensures PutAll(s, pairs) == s + pairs
    decreases |pairs|
  {
    if |pairs| > 0 {
      var k := pairs[0].0;
      forall i | 0 <= i < |s| ensures Keys(s)[i] != k {
        assert (s + pairs)[i] == s[i] && (s + pairs)[|s|] == pairs[0];
      }
      assert (s + [pairs[0]]) + pairs[1..] == s + pairs;
      PutAllFresh(s + [pairs[0]], pairs[1..]);
    }
  }

  /** After assigning pairs with distinct keys, each of those keys maps to its pair's value,
      and every other key keeps the value it had. */
  lemma {:induction false} FindPutAll<V>(s: seq<(string, V)>, pairs: seq<(string, V)>, k: string)
    requires Distinct(pairs)
    ensures forall i :: 0 <= i < |pairs| && pairs[i].0 == k ==> Find(PutAll(s, pairs), k) == Some(pairs[i].1)
    ensures k !in Keys(pairs) ==> Find(PutAll(s, pairs), k) == Find(s, k)
    decreases |pairs|
  {
    if |pairs| > 0 {
      var s' := Put(s, pairs[0].0, pairs[0].1);
      var rest := pairs[1..];
      assert forall i :: 1 <= i < |pairs| ==> pairs[i] == rest[i - 1];
      assert [pairs[0]] + rest == pairs;
      KeysCons(pairs[0], rest);
      FindPutAll(s', rest, k);
      if pairs[0].0 == k {
        forall j | 0 <= j < |rest| ensures Keys(rest)[j] != k {
          assert rest[j] == pairs[j + 1];
        }
      }
    }
  }

  /** A key is looked up in the first list, then in the second. */
  lemma {:induction false} FindConcat<V>(s: seq<(string, V)>, t: seq<(string, V)>, k: string)
    ensures Find(s + t, k) == if k in Keys(s) then Find(s, k) else Find(t, k)
    decreases |s|
  {
    if |s| == 0 {
      assert s + t == t;
    } else {
      var st := s + t;
      assert st[0] == s[0] && st[1..] == s[1..] + t;
      assert [s[0]] + s[1..] == s;
      KeysCons(s[0], s[1..]);
      FindConcat(s[1..], t, k);
      if s[0].0 == k {
        assert Find(st, k) == Some(s[0].1);
        assert Find(s, k) == Some(s[0].1);
        assert k in Keys(s);
      } else {
        assert Find(st, k) == Find(st[1..], k);
        assert Find(s, k) == Find(s[1..], k);
      }
    }
  }

  /** Two maps with distinct keys and no key in common concatenate to one. */
  lemma DistinctConcat<V>(s: seq<(string, V)>, t: seq<(string, V)>)
    requires Distinct(s) && Distinct(t)
    requires forall i :: 0 <= i < |s| ==> s[i].0 !in Keys(t)
    ensures Distinct(s + t)
  {
    forall a, b | 0 <= a < b < |s + t| ensures (s + t)[a].0 != (s + t)[b].0 {
      if b >= |s| {
        assert (s + t)[b] == t[b - |s|];
        assert Keys(t)[b - |s|] == t[b - |s|].0;
      }
    }
  }
}
