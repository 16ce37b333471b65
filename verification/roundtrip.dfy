/** Decoding what the encoder emits: a canonical value formatted without a
    context is read back as the same value (encoder.go with decoder.go),
    except for the multi-valued properties of `formatResource` as it is
    written. */
module RoundTrip {
  import opened Results
  import opened Assoc
  import opened RawJson
  import opened Vocabulary
  import opened Node
  import opened Decoder
  import opened DecoderProps
  import opened Encoding

  /** An encoder with no context: `reduce` keeps every IRI and matches no
      term, and no term is typed `@id`. */
  const Verbatim: Encoder := Encoder(None, s => Compacted(s, None), p => false)

  /** A JSON value that is neither an object nor an array. */
  predicate Scalar(j: Json)
  {
    j.Null? || j.Bool? || j.Num? || j.Str?
  }

  /** The canonical values: raw scalars, and nodes built from them. They
      are what the decoder produces from JSON without type coercion or
      nested arrays. Integers from `xsd:integer`, raw arrays and nodes whose
      first `rdf:type` is a coercion IRI are not canonical: the encoder emits
      them as JSON that reads back as a different value (see
      `IntegerReadsBackRaw`). */
  predicate CanonicalValue(v: Value)
    decreases v, 1
  {
    match v
    case Raw(j) => Scalar(j)
    case Int(_) => false
    case Res(r) => CanonicalResource(r)
  }

  /** A node as the decoder builds it: properties allocated exactly when
      there is one, each under one non-keyword IRI with a non-empty list;
      `rdf:type` values are strings, the first of them not one of the
      coercions the decoder recognises; every value canonical. */
  predicate CanonicalResource(r: Resource)
    decreases Res(r), 0
  {
    var es := Entries(r.props);
    && (r.props.Allocated? <==> |es| > 0)
    && (forall a, b :: 0 <= a < b < |es| ==> es[a].key != es[b].key)
    && (forall n :: 0 <= n < |es| ==> !IsKeyword(es[n].key) && |es[n].values| > 0)
    && (forall n, j :: 0 <= n < |es| && es[n].key == PropType && 0 <= j < |es[n].values| ==>
          es[n].values[j].Raw? && es[n].values[j].json.Str?)
    && (forall n :: 0 <= n < |es| && es[n].key == PropType ==> !IsRecognisedHint(es[n].values[0].json.s))
    && (forall n, j :: 0 <= n < |es| && 0 <= j < |es[n].values| ==> ValueBelow(r, n, j))
  }

  /** Value j of property n is canonical. */
  predicate ValueBelow(r: Resource, n: nat, j: nat)
    requires n < |Entries(r.props)| && j < |Entries(r.props)[n].values|
    decreases Res(r), 0, 0
  {
    ValueSmaller(r, n, j);
    CanonicalValue(Entries(r.props)[n].values[j])
  }

  /** The position of property 0 among the emitted members: after `@id`
      when the node has an IRI. */
  function Offset(r: Resource): nat
  {
    if r.id != "" then 1 else 0
  }

  /** The members emitted for `r`: `@id` when it has an IRI, then one member
      per property in entry order. */
  function Emitted(r: Resource): seq<(string, Json)>
  {
    var es := Entries(r.props);
    (if r.id != "" then [("@id", Str(r.id))] else []) +
      seq(|es|, n requires 0 <= n < |es| => (OutName(Verbatim, es[n].key), MemberJson(Verbatim, Formatted, r, n)))
  }

  /** Without a context the emitted names are the IRIs themselves, with
      `rdf:type` emitted as `@type`; for a canonical node they are distinct,
      none is `@id` or `@context`, and the node is emitted as `Emitted`. */
  lemma VerbatimNames(r: Resource)
    requires CanonicalResource(r)
    ensures NamesDistinct(Verbatim, r)
    ensures forall n :: 0 <= n < Len(r.props) ==>
      OutName(Verbatim, Entries(r.props)[n].key) ==
        (if Entries(r.props)[n].key == PropType then "@type" else Entries(r.props)[n].key)
    ensures forall n :: 0 <= n < Len(r.props) ==>
      OutName(Verbatim, Entries(r.props)[n].key) !in {"@id", "@context"}
    ensures FormatResource(Verbatim, r).members == Emitted(r)
  {
    assert PropType[0] != '@';
    FormatResourceFresh(Verbatim, Formatted, r);
  }

  /** The emitted names other than those of `rdf:type` and `@id` are not
      keywords. */
  lemma EmittedNames(r: Resource, k: nat)
    requires CanonicalResource(r) && k < |Emitted(r)|
    ensures Emitted(r)[k].0 != "@context"
    ensures Emitted(r)[k].0 == "@type" <==> k >= Offset(r) && Entries(r.props)[k - Offset(r)].key == PropType
    ensures Emitted(r)[k].0 == "@id" <==> k < Offset(r)
  {
    VerbatimNames(r);
    var p := Offset(r);
    if k >= p {
      assert Emitted(r)[k].0 == OutName(Verbatim, Entries(r.props)[k - p].key);
    }
  }

  lemma VerbatimReduce(s: string)
    ensures Verbatim.reduce(s) == Compacted(s, None)
  {
  }

  /** No property is collapsed to bare IRIs: no term is typed `@id`. */
  lemma NoCollapse(key: string)
    ensures !Collapses(Verbatim, key)
  {
    VerbatimReduce(if key == PropType then "@type" else key);
  }

  /** Member `Offset(r) + n` is property n under its emitted name, which the
      decoder resolves back to the property's IRI, with the `anyURI`
      coercion for `rdf:type` and none otherwise. */
  lemma EmittedMember(r: Resource, n: nat)
    requires CanonicalResource(r) && n < Len(r.props)
    ensures var e := Entries(r.props)[n];
      var name := if e.key == PropType then "@type" else e.key;
      && Offset(r) + n < |Emitted(r)|
      && Emitted(r)[Offset(r) + n] == (name, MemberJson(Verbatim, Formatted, r, n))
      && ResolveKey(None, name) == Some((e.key, if e.key == PropType then TypeAnyUri else ""))
  {
    VerbatimNames(r);
  }

  /** A value of a canonical node is emitted as one JSON value, never an
      array, so the emitted member lists exactly the property's values. */
  lemma EmittedItems(r: Resource, n: nat)
    requires CanonicalResource(r) && n < Len(r.props)
    ensures var vs := Entries(r.props)[n].values;
      ValueList(MemberJson(Verbatim, Formatted, r, n)) ==
        seq(|vs|, j requires 0 <= j < |vs| => Item(Verbatim, Formatted, r, n, j, |vs| == 1))
  {
    var vs := Entries(r.props)[n].values;
    if |vs| == 1 {
      var key := Entries(r.props)[n].key;
      var x := vs[0];
      var y := Item(Verbatim, Formatted, r, n, 0, true);
      ItemMeaning(Verbatim, Formatted, r, n, 0, true);
      NoCollapse(key);
      ValueSmaller(r, n, 0);
      assert ValueBelow(r, n, 0);
      assert CanonicalValue(x);
      if key == PropType {
        assert y.Str?;
      } else if x.Raw? {
        assert Scalar(x.json);
      } else {
        assert x.Res?;
        assert y == FormatResourceIn(Verbatim, Formatted, x.resource);
      }
    }
  }

  /** The emitted `@type` member is the formatted `rdf:type` property, whose
      first value is the node's first type. */
  lemma TypeMember(r: Resource, n: nat)
    requires CanonicalResource(r) && n < Len(r.props) && Entries(r.props)[n].key == PropType
    ensures var t := Find(Emitted(r), "@type");
      var s := Entries(r.props)[n].values[0].json.s;
      && t.Some?
      && (t.value == Str(s) || (t.value.Arr? && |t.value.items| > 0 && t.value.items[0] == Str(s)))
  {
    var e := Entries(r.props)[n];
    EmittedMember(r, n);
    FormatResourceFresh(Verbatim, Formatted, r);
    VerbatimNames(r);
    FindAt(Emitted(r), Offset(r) + n);
    EmittedItems(r, n);
    ItemMeaning(Verbatim, Formatted, r, n, 0, |e.values| == 1);
    VerbatimReduce(e.values[0].json.s);
  }

  /** The node formatted without a context is read with no coercion: its
      first type, if any, is not a hint the decoder recognises. */
  lemma FormattedHint(r: Resource)
    requires CanonicalResource(r)
    ensures !IsRecognisedHint(EffectiveHint(Obj(Emitted(r)), ""))
  {
    var es := Entries(r.props);
    var out := Emitted(r);
    if n :| 0 <= n < |es| && es[n].key == PropType {
      TypeMember(r, n);
    } else {
      forall k | 0 <= k < |out| ensures out[k].0 != "@type" {
        EmittedNames(r, k);
      }
      FindAbsent(out, "@type");
    }
  }

  /** Value k of property n, as emitted, reads back as itself under the
      property's hint. */
  lemma {:induction false} ItemRoundTrip(fetch: Option<FetchFunc>, r: Resource, n: nat, k: nat)
    requires CanonicalResource(r) && n < Len(r.props) && k < |Entries(r.props)[n].values|
    ensures var e := Entries(r.props)[n];
      Parse(fetch, None, Item(Verbatim, Formatted, r, n, k, |e.values| == 1),
            if e.key == PropType then TypeAnyUri else "") == Ok(e.values[k])
    decreases Res(r), 0
  {
    var e := Entries(r.props)[n];
    var x := e.values[k];
    var y := Item(Verbatim, Formatted, r, n, k, |e.values| == 1);
    ItemMeaning(Verbatim, Formatted, r, n, k, |e.values| == 1);
    ValueSmaller(r, n, k);
    assert ValueBelow(r, n, k);
    if e.key == PropType {
      VerbatimReduce(x.json.s);
      assert y == Str(x.json.s);
      ParseAnyUri(fetch, None, y);
    } else {
      assert y == Format(Verbatim, Formatted, x);
      RoundTripValue(fetch, x);
    }
  }

  /** Property n of a canonical node, emitted and read back, is the same
      property with the same values in the same order. */
  lemma {:induction false} MemberRoundTrip(fetch: Option<FetchFunc>, r: Resource, n: nat)
    requires CanonicalResource(r) && n < Len(r.props)
    ensures Offset(r) + n < |Emitted(r)|
    ensures ParseMember(fetch, None, Emitted(r), Offset(r) + n) == Ok([Entries(r.props)[n]])
    decreases Res(r), 1
  {
    var e := Entries(r.props)[n];
    var m := Emitted(r);
    var i := Offset(r) + n;
    var hint := if e.key == PropType then TypeAnyUri else "";
    EmittedMember(r, n);
    EmittedItems(r, n);
    var items := ValueList(m[i].1);
    forall k | 0 <= k < |items| ensures Parse(fetch, None, items[k], hint) == Ok(e.values[k]) {
      ItemRoundTrip(fetch, r, n, k);
    }
    assert |items| == |e.values|;
    ParseListValues(fetch, None, m, i, hint);
    var got := ParseList(fetch, None, m, i, hint, 0);
    assert got.Ok?;
    assert got.value == e.values;
  }

  /** The emitted members carry no `@context`, so the node is read in the
      enclosing (here absent) scope. */
  lemma EmittedScope(fetch: Option<FetchFunc>, r: Resource)
    requires CanonicalResource(r)
    ensures Scope(fetch, None, Emitted(r)) == Ok(None)
  {
    var out := Emitted(r);
    forall k | 0 <= k < |out| ensures out[k].0 != "@context" {
      EmittedNames(r, k);
    }
    FindAbsent(out, "@context");
  }

  /** `@id` gives back the node's IRI. */
  lemma EmittedId(r: Resource)
    requires CanonicalResource(r)
    ensures IdOf(None, Emitted(r)) == r.id
  {
    var out := Emitted(r);
    if r.id != "" {
      assert out[0] == ("@id", Str(r.id));
    } else {
      forall k | 0 <= k < |out| ensures out[k].0 != "@id" {
        EmittedNames(r, k);
      }
      FindAbsent(out, "@id");
    }
  }

  /** The emitted members read back as the node's entries, in order: `@id`
      is skipped and every other member gives back its property. */
  lemma {:induction false} EmittedEntries(fetch: Option<FetchFunc>, r: Resource)
    requires CanonicalResource(r)
    ensures ParseMembers(fetch, None, Emitted(r), 0) == Ok(Entries(r.props))
    decreases Res(r), 3
  {
    var es := Entries(r.props);
    var out := Emitted(r);
    var p := Offset(r);
    var mp := MemberParses(fetch, None, out, 0);
    forall k | 0 <= k < |out| ensures mp[k] == Ok(if k < p then [] else [es[k - p]]) {
      EmittedParse(fetch, r, k);
    }
    GatherSingletons(mp, p, es);
    ParseMembersGathers(fetch, None, out, 0);
  }

  /** Member k of the emitted object reads back as nothing when it is
      `@id`, and as its property otherwise. */
  lemma {:induction false} EmittedParse(fetch: Option<FetchFunc>, r: Resource, k: nat)
    requires CanonicalResource(r) && k < |Emitted(r)|
    ensures ParseMember(fetch, None, Emitted(r), k) ==
      Ok(if k < Offset(r) then [] else [Entries(r.props)[k - Offset(r)]])
    decreases Res(r), 2
  {
    if k < Offset(r) {
      EmittedNames(r, k);
    } else {
      MemberRoundTrip(fetch, r, k - Offset(r));
    }
  }

  /** A canonical node, emitted without a context, reads back as itself. */
  lemma {:induction false} RoundTripResource(fetch: Option<FetchFunc>, r: Resource)
    requires CanonicalResource(r)
    ensures ParseResource(fetch, None, Emitted(r)) == Ok(r)
    decreases Res(r), 4
  {
    EmittedScope(fetch, r);
    EmittedId(r);
    EmittedEntries(fetch, r);
    CollectFreshNil(Entries(r.props));
  }

  /** A canonical value formatted without a context reads back as itself. */
  lemma {:induction false} RoundTripValue(fetch: Option<FetchFunc>, v: Value)
    requires CanonicalValue(v)
    ensures Parse(fetch, None, Format(Verbatim, Formatted, v), "") == Ok(v)
    decreases v, 5
  {
    match v
    case Raw(j) =>
      ParseUnhinted(fetch, None, j, "");
    case Res(r) =>
      VerbatimNames(r);
      FormattedHint(r);
      RoundTripResource(fetch, r);
      ParseUnhinted(fetch, None, Obj(Emitted(r)), "");
  }

  /** An `xsd:integer` value is emitted as a plain number, which reads back
      as a raw number: the round trip does not cover it. */
  lemma IntegerReadsBackRaw(fetch: Option<FetchFunc>, i: int)
    ensures Decode(fetch, Encode(Verbatim, Formatted, Int(i))) == Ok(Raw(Num(i)))
    ensures Decode(fetch, Encode(Verbatim, AsWritten, Int(i))) == Ok(Raw(Num(i)))
  {
    ParseUnhinted(fetch, None, Num(i), "");
  }

  /** `Decode` inverts `Encode` on canonical values, with or without a
      fetch function. */
  lemma DecodeEncode(fetch: Option<FetchFunc>, v: Value)
    requires CanonicalValue(v)
    ensures Decode(fetch, Encode(Verbatim, Formatted, v)) == Ok(v)
  {
    RoundTripValue(fetch, v);
  }

  // ----- encoder.go:90-95: elements of a multi-valued property -----

  const Knows := "http://xmlns.com/foaf/0.1/knows"

  /** Two nodes known only by their IRIs. */
  const Alice := Resource("http://example.org/alice", Unallocated)
  const Bob := Resource("http://example.org/bob", Unallocated)

  /** A blank node with one property holding two values. */
  function Pair(key: string, x: Value, y: Value): Resource
  {
    Resource("", Allocated([Entry(key, [x, y])]))
  }

  /** A blank node that knows both. */
  const Knower := Pair(Knows, Res(Alice), Res(Bob))

  /** What encoding/json makes of an unformatted `*Resource` that has only
      an IRI, read back as a node: properties named `ID` and `Props`. */
  function GoStructNode(who: Resource): Resource
  {
    Resource("", Allocated([Entry("ID", [Raw(Str(who.id))]), Entry("Props", [Raw(Null)])]))
  }

  /** The node whose correct formatting is the JSON `formatResource` emits
      for `Knower`. */
  const Misread := Pair(Knows, Res(GoStructNode(Alice)), Res(GoStructNode(Bob)))

  /** A node with only an IRI is emitted by encoding/json the way
      `GoStructNode` of it is formatted. */
  lemma GoStructFormat(who: Resource)
    requires who.props == Unallocated
    ensures GoJson(Res(who)) == FormatResource(Verbatim, GoStructNode(who))
  {
    var g := GoStructNode(who);
    GoStructCanonical(who);
    VerbatimNames(g);
    VerbatimReduce("ID");
    VerbatimReduce("Props");
    NoCollapse("ID");
    NoCollapse("Props");
    ItemMeaning(Verbatim, Formatted, g, 0, 0, true);
    ItemMeaning(Verbatim, Formatted, g, 1, 0, true);
    assert Emitted(g) == [("ID", Str(who.id)), ("Props", Null)];
  }

  /** Its two properties are plain names holding scalars. */
  lemma GoStructCanonical(who: Resource)
    ensures CanonicalResource(GoStructNode(who))
  {
    var g := GoStructNode(who);
    assert "ID"[0] != '@' && "Props"[0] != '@' && "ID" != "Props";
    assert "ID" != PropType && "Props" != PropType;
    assert ValueBelow(g, 0, 0) && ValueBelow(g, 1, 0);
  }

  /** Two canonical values under one ordinary property make a canonical
      node. */
  lemma PairCanonical(key: string, x: Value, y: Value)
    requires !IsKeyword(key) && key != PropType
    requires CanonicalValue(x) && CanonicalValue(y)
    ensures CanonicalResource(Pair(key, x, y))
  {
    var p := Pair(key, x, y);
    assert ValueBelow(p, 0, 0) && ValueBelow(p, 0, 1);
  }

  /** With two IRI-only nodes under one property, `formatResource` as
      written emits the formatting of the node that holds their
      encoding/json forms instead. */
  lemma AsWrittenPair(key: string, a: Resource, b: Resource)
    requires !IsKeyword(key) && key != PropType
    requires a.props == Unallocated && b.props == Unallocated
    ensures FormatResourceAsWritten(Verbatim, Pair(key, Res(a), Res(b))) ==
      FormatResource(Verbatim, Pair(key, Res(GoStructNode(a)), Res(GoStructNode(b))))
  {
    var good := Pair(key, Res(a), Res(b));
    var bad := Pair(key, Res(GoStructNode(a)), Res(GoStructNode(b)));
    GoStructCanonical(a);
    GoStructCanonical(b);
    PairCanonical(key, Res(a), Res(b));
    PairCanonical(key, Res(GoStructNode(a)), Res(GoStructNode(b)));
    VerbatimNames(good);
    VerbatimNames(bad);
    FormatResourceFresh(Verbatim, AsWritten, good);
    PairMember(key, a, b);
    assert FormatResourceAsWritten(Verbatim, good).members == Emitted(bad);
  }

  /** The property's two elements: handed to encoding/json as written, and
      formatted as `GoStructNode`s once corrected, they come out the same. */
  lemma PairMember(key: string, a: Resource, b: Resource)
    requires a.props == Unallocated && b.props == Unallocated
    ensures MemberJson(Verbatim, AsWritten, Pair(key, Res(a), Res(b)), 0) ==
      MemberJson(Verbatim, Formatted, Pair(key, Res(GoStructNode(a)), Res(GoStructNode(b))), 0)
  {
    var good := Pair(key, Res(a), Res(b));
    var bad := Pair(key, Res(GoStructNode(a)), Res(GoStructNode(b)));
    GoStructFormat(a);
    GoStructFormat(b);
    NoCollapse(key);
    ItemMeaning(Verbatim, AsWritten, good, 0, 0, false);
    ItemMeaning(Verbatim, AsWritten, good, 0, 1, false);
    ItemMeaning(Verbatim, Formatted, bad, 0, 0, false);
    ItemMeaning(Verbatim, Formatted, bad, 0, 1, false);
  }

  /** `knows` is an ordinary property. */
  lemma KnowsPlain()
    ensures !IsKeyword(Knows) && Knows != PropType
  {
    assert Knows[7] == 'x' && PropType[7] == 'w';
  }

  /** The misread node holds blank nodes where the original holds Alice and Bob. */
  lemma MisreadDiffers()
    ensures Misread != Knower
  {
    assert Entries(Misread.props)[0].values[0].resource.id != Alice.id;
    assert Entries(Knower.props)[0].values[0].resource.id == Alice.id;
  }

  /** Both nodes are canonical. */
  lemma KnowerCanonical()
    ensures CanonicalResource(Knower)
    ensures CanonicalResource(Misread)
  {
    KnowsPlain();
    GoStructCanonical(Alice);
    GoStructCanonical(Bob);
    PairCanonical(Knows, Res(Alice), Res(Bob));
    PairCanonical(Knows, Res(GoStructNode(Alice)), Res(GoStructNode(Bob)));
  }

  /** `Encode` as written hands the two elements of `knows` to encoding/json
      unformatted, so the output is that of a different node: decoding it
      gives two nodes with no IRI and properties `ID` and `Props`, not Alice
      and Bob. */
  lemma AsWrittenLosesNodes(fetch: Option<FetchFunc>)
    ensures CanonicalResource(Knower)
    ensures Decode(fetch, Encode(Verbatim, AsWritten, Res(Knower))) == Ok(Res(Misread))
    ensures Misread != Knower
  {
    assert Encode(Verbatim, AsWritten, Res(Knower)) == FormatResourceAsWritten(Verbatim, Knower);
    KnowerCanonical();
    KnowsPlain();
    AsWrittenPair(Knows, Alice, Bob);
    DecodeEncode(fetch, Res(Misread));
    MisreadDiffers();
  }

  /** With every element formatted, the same node reads back as itself. */
  lemma FormattedKeepsNodes(fetch: Option<FetchFunc>)
    ensures Decode(fetch, Encode(Verbatim, Formatted, Res(Knower))) == Ok(Res(Knower))
  {
    KnowerCanonical();
    DecodeEncode(fetch, Res(Knower));
  }
}
