/** The schema-free node model: `Resource` and its multi-valued `Props`
    (resource.go:10-13, props.go). */
module Node {
  import opened Results
  import opened RawJson

  /** What `parse` can return: a raw JSON value passed through (string,
      bool, float64, nil or a slice), an `int64` from an `xsd:integer`
      literal, or a `*Resource`. */
  datatype Value =
    | Raw(json: Json)
    | Int(i: int)
    | Res(resource: Resource)

  /** A node: its IRI ("" for a blank node) and its properties. */
  datatype Resource = Resource(id: string, props: Props)

  /** One key of a `Props` map with its ordered list of values. */
  datatype Entry = Entry(key: string, values: seq<Value>)

  /** A Go `map[string][]interface{}` that is either nil or allocated. Reads
      see a nil map as empty; the difference shows in `reflect.DeepEqual` and
      in encoding/json ("Props": null). */
  datatype Props = Unallocated | Allocated(entries: seq<Entry>)

  /** The entries of `p`, a nil map reading as empty. */
  function Entries(p: Props): seq<Entry>
  {
    if p.Allocated? then p.entries else []
  }

  /** Go's `len(p)`. */
  function Len(p: Props): nat
  {
    |Entries(p)|
  }

  /** No key has two entries, as in a Go map. */
  predicate DistinctKeys(p: Props)
  {
    var es := Entries(p);
    forall i, j :: 0 <= i < j < |es| ==> es[i].key != es[j].key
  }

  /** No entry of `es` has key `k`. */
  predicate KeyAbsent(es: seq<Entry>, k: string)
  {
    forall n :: 0 <= n < |es| ==> es[n].key != k
  }

  /** The list stored under `k` in the entry sequence, if the key is present. */
  function LookupIn(es: seq<Entry>, k: string): Option<seq<Value>>
  {
    if |es| == 0 then None
    else if es[0].key == k then Some(es[0].values)
    else LookupIn(es[1..], k)
  }

  /** A key is found exactly when some entry carries it, and what is found is
      the list of such an entry. */
  lemma {:induction false} LookupInSpec(es: seq<Entry>, k: string)
    ensures LookupIn(es, k).None? <==> KeyAbsent(es, k)
    ensures LookupIn(es, k).Some? ==> Entry(k, LookupIn(es, k).value) in es
  {
    if |es| > 0 && es[0].key != k {
      LookupInSpec(es[1..], k);
      assert forall n :: 1 <= n < |es| ==> es[n] == es[1..][n - 1];
    }
  }

  /** Go's `v, ok := p[k]`. */
  function Lookup(p: Props, k: string): Option<seq<Value>>
  {
    LookupIn(Entries(p), k)
  }

  /** The list stored under `k`; a missing key reads as the empty list. */
  function ValuesOf(p: Props, k: string): seq<Value>
  {
    match Lookup(p, k)
    case Some(vs) => vs
    case None => []
  }

  /** props.go:5-11: the first value stored under `k`, or the empty string
      when `k` is missing or its list is empty. It never returns nil. */
  function Get(p: Props, k: string): (v: Value)
    ensures |ValuesOf(p, k)| > 0 ==> v == ValuesOf(p, k)[0]
    ensures |ValuesOf(p, k)| == 0 ==> v == Raw(Str(""))
  {
    match Lookup(p, k)
    case Some(vs) => if |vs| == 0 then Raw(Str("")) else vs[0]
    case None => Raw(Str(""))
  }

  /** Replace `k`'s list in place, or add it at the end when `k` is new. */
  function PutEntry(es: seq<Entry>, k: string, vs: seq<Value>): (r: seq<Entry>)
    ensures LookupIn(r, k) == Some(vs)
    ensures forall k' :: k' != k ==> LookupIn(r, k') == LookupIn(es, k')
  {
    if |es| == 0 then [Entry(k, vs)]
    else if es[0].key == k then [Entry(k, vs)] + es[1..]
    else [es[0]] + PutEntry(es[1..], k, vs)
  }

  /** A new key goes to the end; an existing key keeps its position, so the
      key sequence is unchanged. */
  lemma {:induction false} PutEntryShape(es: seq<Entry>, k: string, vs: seq<Value>)
    ensures KeyAbsent(es, k) ==> PutEntry(es, k, vs) == es + [Entry(k, vs)]
    ensures !KeyAbsent(es, k) ==> |PutEntry(es, k, vs)| == |es|
    ensures !KeyAbsent(es, k) ==> forall n :: 0 <= n < |es| ==> PutEntry(es, k, vs)[n].key == es[n].key
  {
    if |es| > 0 && es[0].key != k {
      var tail := es[1..];
      PutEntryShape(tail, k, vs);
      assert es == [es[0]] + tail;
      assert forall n :: 1 <= n < |es| ==> es[n] == tail[n - 1];
      assert KeyAbsent(es, k) <==> KeyAbsent(tail, k);
    }
  }

  /** decoder.go:198-201: `p[k] = append(p[k], x)`, allocating a nil map
      first. The value goes to the end of `k`'s list; every other key keeps
      its list. */
  function Append(p: Props, k: string, x: Value): (r: Props)
    ensures r.Allocated?
    ensures ValuesOf(r, k) == ValuesOf(p, k) + [x]
    ensures forall k' :: k' != k ==> Lookup(r, k') == Lookup(p, k')
  {
    Allocated(PutEntry(Entries(p), k, ValuesOf(p, k) + [x]))
  }

  /** decoder.go:201 applied to every value of a key, in order. */
  function AppendAll(p: Props, k: string, vs: seq<Value>): (r: Props)
    ensures ValuesOf(r, k) == ValuesOf(p, k) + vs
    ensures |vs| == 0 ==> r == p
    ensures |vs| > 0 ==> r.Allocated?
    decreases |vs|
  {
    if |vs| == 0 then p
    else
      var before := ValuesOf(p, k);
      var p1 := Append(p, k, vs[0]);
      assert (before + [vs[0]]) + vs[1..] == before + vs;
      AppendAll(p1, k, vs[1..])
  }

  /** Appending under `k` leaves every other key's list alone. */
  lemma {:induction false} AppendAllFrame(p: Props, k: string, vs: seq<Value>, other: string)
    requires other != k
    ensures Lookup(AppendAll(p, k, vs), other) == Lookup(p, other)
    decreases |vs|
  {
    if |vs| > 0 {
      AppendAllFrame(Append(p, k, vs[0]), k, vs[1..], other);
    }
  }

  /** The values of every entry appended in order, as decoder.go:193-202
      does for every key of the object. */
  function Collect(p: Props, found: seq<Entry>): (r: Props)
    decreases |found|
  {
    if |found| == 0 then p
    else Collect(AppendAll(p, found[0].key, found[0].values), found[1..])
  }

  /** All values stored under `k` by `found`, in order. */
  function ValuesFor(found: seq<Entry>, k: string): seq<Value>
    decreases |found|
  {
    if |found| == 0 then []
    else (if found[0].key == k then found[0].values else []) + ValuesFor(found[1..], k)
  }

  /** Collecting appends, under each key, the values of every entry with that
      key, in entry order. */
  lemma {:induction false} CollectValues(p: Props, found: seq<Entry>, k: string)
    ensures ValuesOf(Collect(p, found), k) == ValuesOf(p, k) + ValuesFor(found, k)
    decreases |found|
  {
    if |found| > 0 {
      var own := if found[0].key == k then found[0].values else [];
      var p1 := AppendAll(p, found[0].key, found[0].values);
      CollectValues(p1, found[1..], k);
      AppendAllValues(p, found[0], k);
      var a, b := ValuesOf(p, k), ValuesFor(found[1..], k);
      assert ValuesFor(found, k) == own + b;
      assert Collect(p, found) == Collect(p1, found[1..]);
      ConcatAssoc(a, own, b);
    }
  }

  lemma ConcatAssoc(a: seq<Value>, b: seq<Value>, c: seq<Value>)
    ensures (a + b) + c == a + (b + c)
  {
  }

  /** Appending an entry's values extends its own key's list and no other. */
  lemma AppendAllValues(p: Props, e: Entry, k: string)
    ensures ValuesOf(AppendAll(p, e.key, e.values), k) ==
      ValuesOf(p, k) + (if e.key == k then e.values else [])
  {
    if e.key != k {
      AppendAllFrame(p, e.key, e.values, k);
    }
  }

  /** A map that was never written stays nil: collecting into a nil map
      gives a nil map exactly when no entry has a value. */
  lemma {:induction false} CollectUnallocated(p: Props, found: seq<Entry>)
    ensures Collect(p, found).Allocated? <==>
      p.Allocated? || exists n :: 0 <= n < |found| && |found[n].values| > 0
    decreases |found|
  {
    if |found| > 0 {
      var p1 := AppendAll(p, found[0].key, found[0].values);
      CollectUnallocated(p1, found[1..]);
      if |found[0].values| > 0 {
        assert |found[0].values| > 0;
      }
      assert forall n :: 1 <= n < |found| ==> found[n] == found[1..][n - 1];
    }
  }

  /** Appending every value of a list to a key that sits last, and that no
      other entry carries, extends that last entry's list. */
  lemma {:induction false} AppendAllLast(es: seq<Entry>, k: string, pre: seq<Value>, vs: seq<Value>)
    requires KeyAbsent(es, k)
    ensures AppendAll(Allocated(es + [Entry(k, pre)]), k, vs) == Allocated(es + [Entry(k, pre + vs)])
    decreases |vs|
  {
    if |vs| == 0 {
      assert pre + vs == pre;
    } else {
      var whole := es + [Entry(k, pre)];
      var next := es + [Entry(k, pre + [vs[0]])];
      LookupLast(es, k, pre);
      assert ValuesOf(Allocated(whole), k) == pre;
      PutLast(es, k, pre, pre + [vs[0]]);
      assert Append(Allocated(whole), k, vs[0]) == Allocated(next);
      assert AppendAll(Allocated(whole), k, vs) == AppendAll(Allocated(next), k, vs[1..]);
      AppendAllLast(es, k, pre + [vs[0]], vs[1..]);
      assert (pre + [vs[0]]) + vs[1..] == pre + vs;
    }
  }

  /** The last entry is found when no earlier entry has its key. */
  lemma {:induction false} LookupLast(es: seq<Entry>, k: string, vs: seq<Value>)
    requires KeyAbsent(es, k)
    ensures LookupIn(es + [Entry(k, vs)], k) == Some(vs)
  {
    if |es| > 0 {
      assert (es + [Entry(k, vs)])[1..] == es[1..] + [Entry(k, vs)];
      LookupLast(es[1..], k, vs);
    }
  }

  /** Writing a key that sits last replaces that last entry. */
  lemma {:induction false} PutLast(es: seq<Entry>, k: string, pre: seq<Value>, vs: seq<Value>)
    requires KeyAbsent(es, k)
    ensures PutEntry(es + [Entry(k, pre)], k, vs) == es + [Entry(k, vs)]
  {
    if |es| > 0 {
      var whole := es + [Entry(k, pre)];
      assert whole[0] == es[0];
      assert whole[1..] == es[1..] + [Entry(k, pre)];
      PutLast(es[1..], k, pre, vs);
      assert [es[0]] + (es[1..] + [Entry(k, vs)]) == es + [Entry(k, vs)];
    }
  }

  /** Collecting entries whose keys are new and distinct and whose lists are
      non-empty adds exactly those entries, in order. */
  lemma {:induction false} CollectFresh(acc: seq<Entry>, es: seq<Entry>)
    requires forall a, b :: 0 <= a < b < |acc + es| ==> (acc + es)[a].key != (acc + es)[b].key
    requires forall n :: 0 <= n < |es| ==> |es[n].values| > 0
    ensures Collect(Allocated(acc), es) == Allocated(acc + es)
    decreases |es|
  {
    if |es| > 0 {
      var e := es[0];
      assert KeyAbsent(acc, e.key) by {
        forall n | 0 <= n < |acc| ensures acc[n].key != e.key {
          assert (acc + es)[n] == acc[n] && (acc + es)[|acc|] == e;
        }
      }
      AppendAllFresh(acc, e);
      assert (acc + [e]) + es[1..] == acc + es;
      CollectFresh(acc + [e], es[1..]);
    }
  }

  /** Appending a non-empty list under a new key adds one entry at the end. */
  lemma AppendAllFresh(acc: seq<Entry>, e: Entry)
    requires KeyAbsent(acc, e.key) && |e.values| > 0
    ensures AppendAll(Allocated(acc), e.key, e.values) == Allocated(acc + [e])
  {
    LookupInSpec(acc, e.key);
    PutEntryShape(acc, e.key, [e.values[0]]);
    assert ValuesOf(Allocated(acc), e.key) == [];
    assert [] + [e.values[0]] == [e.values[0]];
    assert Append(Allocated(acc), e.key, e.values[0]) == Allocated(acc + [Entry(e.key, [e.values[0]])]);
    AppendAllLast(acc, e.key, [e.values[0]], e.values[1..]);
    assert [e.values[0]] + e.values[1..] == e.values;
  }

  /** From a nil map, collecting such entries gives a nil map when there are
      none and exactly those entries otherwise. */
  lemma CollectFreshNil(es: seq<Entry>)
    requires forall a, b :: 0 <= a < b < |es| ==> es[a].key != es[b].key
    requires forall n :: 0 <= n < |es| ==> |es[n].values| > 0
    ensures Collect(Unallocated, es) == if |es| == 0 then Unallocated else Allocated(es)
  {
    if |es| > 0 {
      var e := es[0];
      assert Append(Unallocated, e.key, e.values[0]) == Append(Allocated([]), e.key, e.values[0]);
      assert AppendAll(Unallocated, e.key, e.values) == AppendAll(Allocated([]), e.key, e.values) by {
        AppendAllSame(e.key, e.values);
      }
      assert [] + es == es;
      CollectFresh([], es);
    }
  }

  /** A nil map and an empty allocated map agree after the first write. */
  lemma AppendAllSame(k: string, vs: seq<Value>)
    requires |vs| > 0
    ensures AppendAll(Unallocated, k, vs) == AppendAll(Allocated([]), k, vs)
  {
    assert Append(Unallocated, k, vs[0]) == Append(Allocated([]), k, vs[0]);
  }

  /** Appending reads only the entries, so an allocated copy of the same
      entries ends up with the same entries, and stays allocated. */
  lemma {:induction false} AppendAllEntries(p: Props, k: string, vs: seq<Value>)
    ensures AppendAll(Allocated(Entries(p)), k, vs) == Allocated(Entries(AppendAll(p, k, vs)))
  {
    if |vs| > 0 {
      assert Append(Allocated(Entries(p)), k, vs[0]) == Append(p, k, vs[0]);
    }
  }

  /** Collecting into an allocated copy of `p` gives the same entries as
      collecting into `p`, in an allocated map. */
  lemma {:induction false} CollectEntries(p: Props, found: seq<Entry>)
    ensures Collect(Allocated(Entries(p)), found) == Allocated(Entries(Collect(p, found)))
    decreases |found|
  {
    if |found| > 0 {
      var p1 := AppendAll(p, found[0].key, found[0].values);
      AppendAllEntries(p, found[0].key, found[0].values);
      CollectEntries(p1, found[1..]);
    }
  }

  /** Appending keeps the keys distinct. */
  lemma AppendDistinct(p: Props, k: string, x: Value)
    requires DistinctKeys(p)
    ensures DistinctKeys(Append(p, k, x))
  {
    PutEntryShape(Entries(p), k, ValuesOf(p, k) + [x]);
  }

  /** Appending a list of values keeps the keys distinct. */
  lemma {:induction false} AppendAllDistinct(p: Props, k: string, vs: seq<Value>)
    requires DistinctKeys(p)
    ensures DistinctKeys(AppendAll(p, k, vs))
    decreases |vs|
  {
    if |vs| > 0 {
      AppendDistinct(p, k, vs[0]);
      AppendAllDistinct(Append(p, k, vs[0]), k, vs[1..]);
    }
  }

  /** Collecting entries into a map with distinct keys gives a map with
      distinct keys, whatever keys the entries repeat. */
  lemma {:induction false} CollectDistinct(p: Props, found: seq<Entry>)
    requires DistinctKeys(p)
    ensures DistinctKeys(Collect(p, found))
    decreases |found|
  {
    if |found| > 0 {
      AppendAllDistinct(p, found[0].key, found[0].values);
      CollectDistinct(AppendAll(p, found[0].key, found[0].values), found[1..]);
    }
  }

  /** `Get` returns the FIRST value stored under a key: appending to a key
      that already has a value does not change what `Get` returns, appending
      to an empty or missing key makes `Get` return the appended value, and
      appending under another key changes nothing. */
  lemma GetAfterAppend(p: Props, k: string, k': string, x: Value)
    ensures Get(Append(p, k', x), k) ==
      if k != k' then Get(p, k)
      else if |ValuesOf(p, k)| > 0 then Get(p, k)
      else x
  {
    if k == k' {
      assert ValuesOf(Append(p, k', x), k) == ValuesOf(p, k) + [x];
    } else {
      assert ValuesOf(Append(p, k', x), k) == ValuesOf(p, k);
    }
  }

  /** The values under `k` from joined entry lists are those of each list,
      joined in the same order. */
  lemma {:induction false} ValuesForConcat(ss: seq<seq<Entry>>, k: string)
    ensures ValuesFor(Concat(ss), k) == Concat(seq(|ss|, i requires 0 <= i < |ss| => ValuesFor(ss[i], k)))
    decreases |ss|
  {
    if |ss| > 0 {
      ValuesForConcat(ss[1..], k);
      ValuesForAppend(ss[0], Concat(ss[1..]), k);
      var parts := seq(|ss|, i requires 0 <= i < |ss| => ValuesFor(ss[i], k));
      assert parts[1..] == seq(|ss| - 1, i requires 0 <= i < |ss| - 1 => ValuesFor(ss[1..][i], k));
    }
  }

  lemma {:induction false} ValuesForAppend(a: seq<Entry>, b: seq<Entry>, k: string)
    ensures ValuesFor(a + b, k) == ValuesFor(a, k) + ValuesFor(b, k)
    decreases |a|
  {
    if |a| > 0 {
      assert (a + b)[1..] == a[1..] + b;
      ValuesForAppend(a[1..], b, k);
    } else {
      assert a + b == b;
    }
  }
}
