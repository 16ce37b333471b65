/** Formatting the node model back to JSON (encoder.go). */
module Encoding {
  import opened Results
  import opened Assoc
  import opened RawJson
  import opened Vocabulary
  import opened Node
  import opened Contexts

  /** What `ctx.reduce(iri)` returns: the short name to emit, and the term
      it matched (nil when none). */
  datatype Compacted = Compacted(name: string, term: Option<Resource>)

  /** An encoder: its optional context, and the two operations the encoder
      calls but whose definitions are not part of this model, `ctx.reduce`
      and `Props.hasType("@id")`. */
  datatype Encoder = Encoder(
    context: Option<Context>,
    reduce: string -> Compacted,
    hasIdType: Props -> bool)

  /** How a key with zero or several values reaches the output. */
  datatype ListMode =
    | AsWritten  // encoder.go:94: the slice goes to encoding/json unformatted
    | Formatted  // every element is formatted like a single value

  /** A node value that is structurally inside `r` is smaller than `Res(r)`. */
  lemma ValueSmaller(r: Resource, n: nat, j: nat)
    requires n < |Entries(r.props)| && j < |Entries(r.props)[n].values|
    ensures Entries(r.props)[n].values[j] < Res(r)
  {
    var e := Entries(r.props)[n];
    assert e in r.props.entries;
    assert e.values[j] in e.values;
  }

  /** encoding/json applied to a value that was not formatted: a `*Resource`
      comes out as its Go struct, `{"ID": ..., "Props": ...}`, with a nil
      map as null. */
  function GoJson(v: Value): Json
    decreases v, 1
  {
    match v
    case Raw(j) => j
    case Int(i) => Num(i)
    case Res(r) => Obj([("ID", Str(r.id)), ("Props", GoProps(r))])
  }

  function GoProps(r: Resource): Json
    decreases Res(r), 0
  {
    match r.props
    case Unallocated => Null
    case Allocated(es) =>
      Obj(seq(|es|, n requires 0 <= n < |es| =>
        (es[n].key, Arr(seq(|es[n].values|, j requires 0 <= j < |es[n].values| =>
          ValueSmaller(r, n, j); GoJson(es[n].values[j]))))))
  }

  /** encoder.go:71-72, 81: the name a property is emitted under. */
  function OutName(enc: Encoder, key: string): string
  {
    enc.reduce(if key == PropType then "@type" else key).name
  }

  /** encoder.go:81-82: the values of the property are emitted as bare IRIs
      when its term is typed `@id`. */
  predicate Collapses(enc: Encoder, key: string)
  {
    var t := enc.reduce(if key == PropType then "@type" else key).term;
    t.Some? && enc.hasIdType(t.value.props)
  }

  /** encoder.go:52-59, `format`: a resource is formatted; anything else is
      emitted as it is. */
  function Format(enc: Encoder, mode: ListMode, v: Value): (out: Json)
    decreases v, 3
  {
    match v
    case Res(r) => FormatResourceIn(enc, mode, r)
    case Raw(j) => j
    case Int(i) => Num(i)
  }

  /** encoder.go:61-102: `@id` first when the IRI is non-empty, then one
      map assignment per property, in entry order. */
  function FormatResourceIn(enc: Encoder, mode: ListMode, r: Resource): (out: Json)
    ensures out.Obj?
    decreases Res(r), 2
  {
    var init := if r.id != "" then [("@id", Str(r.id))] else [];
    var es := Entries(r.props);
    Obj(PutAll(init, seq(|es|, n requires 0 <= n < |es| => (OutName(enc, es[n].key), MemberJson(enc, mode, r, n)))))
  }

  /** encoder.go:90-95: what property n is emitted as: its one value bare,
      or an array of its zero or several values. */
  function MemberJson(enc: Encoder, mode: ListMode, r: Resource, n: nat): Json
    requires n < |Entries(r.props)|
    decreases Res(r), 1
  {
    var vs := Entries(r.props)[n].values;
    if |vs| == 1 then Item(enc, mode, r, n, 0, true)
    else Arr(seq(|vs|, j requires 0 <= j < |vs| => Item(enc, mode, r, n, j, false)))
  }

  /** encoder.go:74-94: value j of property n. A type string is reduced, a
      property-less resource under an `@id`-typed term becomes its IRI, and
      any other value is formatted (`bare`, the single-value case, or
      `Formatted` mode) or handed to encoding/json as it is. */
  function Item(enc: Encoder, mode: ListMode, r: Resource, n: nat, j: nat, bare: bool): Json
    requires n < |Entries(r.props)| && j < |Entries(r.props)[n].values|
    decreases Res(r), 0
  {
    var key := Entries(r.props)[n].key;
    var x := Entries(r.props)[n].values[j];
    ValueSmaller(r, n, j);
    if key == PropType && x.Raw? && x.json.Str? then Str(enc.reduce(x.json.s).name)
    else if Collapses(enc, key) && x.Res? && Len(x.resource.props) == 0 then Str(x.resource.id)
    else if bare || mode == Formatted then Format(enc, mode, x)
    else GoJson(x)
  }

  /** `formatResource` as it stands in encoder.go. */
  function FormatResourceAsWritten(enc: Encoder, r: Resource): Json
  {
    FormatResourceIn(enc, AsWritten, r)
  }

  /** `formatResource` with every element of a multi-valued property
      formatted. */
  function FormatResource(enc: Encoder, r: Resource): Json
  {
    FormatResourceIn(enc, Formatted, r)
  }

  /** Every term of the scope is defined: encoder.go:188 reads the
      properties of each term and would panic on a nil one. Only a scope
      without a URL reaches that loop (encoder.go:171-173). */
  predicate TermsDefined(c: Context)
  {
    forall n :: 0 <= n < |c.terms| ==> c.terms[n].1.Some?
  }

  /** encoder.go:188-196: a term without properties is its IRI; any other
      term is a formatted node. */
  function TermJson(enc: Encoder, mode: ListMode, t: Resource): Json
  {
    if Len(t.props) == 0 then Str(t.id) else FormatResourceIn(enc, mode, t)
  }

  /** One member per term, in term order. */
  function TermMembers(enc: Encoder, mode: ListMode, c: Context): seq<(string, Json)>
    requires TermsDefined(c)
  {
    seq(|c.terms|, n requires 0 <= n < |c.terms| => (c.terms[n].0, TermJson(enc, mode, c.terms[n].1.value)))
  }

  /** The non-empty ones of `@lang`, `@base` and `@vocab`. */
  function Defaults(c: Context): seq<(string, Json)>
  {
    (if c.lang != "" then [("@lang", Str(c.lang))] else [])
    + (if c.base != "" then [("@base", Str(c.base))] else [])
    + (if c.vocab != "" then [("@vocab", Str(c.vocab))] else [])
  }

  /** encoder.go:167-199. A nil scope is null and a scope loaded from a URL
      is that URL; any other scope is an object of its non-empty defaults
      followed by its terms. */
  function FormatContext(enc: Encoder, mode: ListMode, ctx: Option<Context>): (out: Json)
    requires ctx.Some? && ctx.value.url == "" ==> TermsDefined(ctx.value)
    ensures ctx.None? <==> out == Null
    ensures ctx.Some? && ctx.value.url != "" ==> out == Str(ctx.value.url)
    ensures ctx.Some? && ctx.value.url == "" ==> out.Obj?
  {
    match ctx
    case None => Null
    case Some(c) =>
      if c.url != "" then Str(c.url)
      else
        Obj(PutAll(Defaults(c), TermMembers(enc, mode, c)))
  }

  /** encoder.go:22-50 after the reflection step: format the value, then
      attach the encoder's context, as an extra member of an object or by
      wrapping any other value as `@value`. `AsWritten` is encoder.go as it
      stands; `Formatted` is the corrected list handling. */
  function Encode(enc: Encoder, mode: ListMode, v: Value): (out: Json)
    requires enc.context.Some? && enc.context.value.url == "" ==> TermsDefined(enc.context.value)
    ensures enc.context.None? ==> out == Format(enc, mode, v)
    ensures enc.context.Some? ==> out.Obj? && Find(out.members, "@context") == Some(FormatContext(enc, mode, enc.context))
    ensures enc.context.Some? && Format(enc, mode, v).Obj? ==>
      forall k :: k != "@context" ==> Find(out.members, k) == Find(Format(enc, mode, v).members, k)
    ensures enc.context.Some? && !Format(enc, mode, v).Obj? ==>
      Find(out.members, "@value") == Some(Format(enc, mode, v)) && |out.members| == 2
  {
    var raw := Format(enc, mode, v);
    match enc.context
    case None => raw
    case Some(_) =>
      var fc := FormatContext(enc, mode, enc.context);
      if raw.Obj? then Obj(Put(raw.members, "@context", fc))
      else Obj([("@context", fc), ("@value", raw)])
  }

  /** The emitted names are distinct and none of them is `@id`, so the Go
      map ends up with one member per property whatever the iteration order. */
  predicate NamesDistinct(enc: Encoder, r: Resource)
  {
    var es := Entries(r.props);
    && (forall n :: 0 <= n < |es| ==> OutName(enc, es[n].key) != "@id")
    && (forall a, b :: 0 <= a < b < |es| ==> OutName(enc, es[a].key) != OutName(enc, es[b].key))
  }

  /** encoder.go:65-99: when the emitted names are distinct, the output
      holds `@id`, verbatim, exactly when the IRI is non-empty, and besides
      it exactly one member per property, under the property's emitted name. */
  lemma FormatResourceMembers(enc: Encoder, mode: ListMode, r: Resource)
    requires NamesDistinct(enc, r)
    ensures var out := FormatResourceIn(enc, mode, r).members;
      && Find(out, "@id") == (if r.id != "" then Some(Str(r.id)) else None)
      && |out| == Len(r.props) + (if r.id != "" then 1 else 0)
      && forall n :: 0 <= n < Len(r.props) ==>
           Find(out, OutName(enc, Entries(r.props)[n].key)) == Some(MemberJson(enc, mode, r, n))
  {
    FormatResourceFresh(enc, mode, r);
    FormatResourceId(enc, mode, r);
    forall n | 0 <= n < Len(r.props)
      ensures Find(FormatResourceIn(enc, mode, r).members, OutName(enc, Entries(r.props)[n].key)) ==
        Some(MemberJson(enc, mode, r, n))
    {
      FormatResourceFinds(enc, mode, r, n);
    }
  }

  /** The output holds `@id` exactly when the IRI is non-empty. */
  lemma FormatResourceId(enc: Encoder, mode: ListMode, r: Resource)
    requires NamesDistinct(enc, r)
    ensures Find(FormatResourceIn(enc, mode, r).members, "@id") == (if r.id != "" then Some(Str(r.id)) else None)
  {
    var es := Entries(r.props);
    var out := FormatResourceIn(enc, mode, r).members;
    FormatResourceFresh(enc, mode, r);
    if r.id != "" {
      assert out[0] == ("@id", Str(r.id));
    } else {
      forall k | 0 <= k < |out| ensures out[k].0 != "@id" {
        assert out[k].0 == OutName(enc, es[k].key);
      }
      FindAbsent(out, "@id");
    }
  }

  /** Property n is found under its emitted name. */
  lemma FormatResourceFinds(enc: Encoder, mode: ListMode, r: Resource, n: nat)
    requires NamesDistinct(enc, r) && n < Len(r.props)
    ensures Find(FormatResourceIn(enc, mode, r).members, OutName(enc, Entries(r.props)[n].key)) ==
      Some(MemberJson(enc, mode, r, n))
  {
    var out := FormatResourceIn(enc, mode, r).members;
    var p := if r.id != "" then 1 else 0;
    FormatResourceFresh(enc, mode, r);
    assert out[p + n] == (OutName(enc, Entries(r.props)[n].key), MemberJson(enc, mode, r, n));
    FindAt(out, p + n);
  }

  /** With distinct emitted names every assignment adds a new member: the
      output is `@id` (when present) followed by one member per property, in
      entry order, with distinct names. */
  lemma FormatResourceFresh(enc: Encoder, mode: ListMode, r: Resource)
    requires NamesDistinct(enc, r)
    ensures var es := Entries(r.props);
      var init := if r.id != "" then [("@id", Str(r.id))] else [];
      var out := FormatResourceIn(enc, mode, r).members;
      && Distinct(out)
      && out == init + seq(|es|, n requires 0 <= n < |es| => (OutName(enc, es[n].key), MemberJson(enc, mode, r, n)))
  {
    var init := if r.id != "" then [("@id", Str(r.id))] else [];
    var es := Entries(r.props);
    var ms := seq(|es|, n requires 0 <= n < |es| => (OutName(enc, es[n].key), MemberJson(enc, mode, r, n)));
    var out := init + ms;
    assert Distinct(out) by {
      forall a, b | 0 <= a < b < |out| ensures out[a].0 != out[b].0 {
        if a >= |init| {
          assert out[a] == ms[a - |init|] && out[b] == ms[b - |init|];
        } else {
          assert out[b] == ms[b - |init|];
        }
      }
    }
    PutAllFresh(init, ms);
  }

  /** encoder.go:71-95: what each value of property n becomes. Under the
      type property a string is emitted as its reduced name; under a term
      typed `@id` a resource without properties is emitted as its IRI; other
      raw values and integers pass through unchanged, and other resources
      are formatted recursively when they stand alone (or in `Formatted`
      mode) and handed to encoding/json otherwise. A property with exactly
      one value is emitted as that value, any other as an array of its
      values in order. */
  lemma MemberValues(enc: Encoder, mode: ListMode, r: Resource, n: nat, j: nat)
    requires n < Len(r.props) && j < |Entries(r.props)[n].values|
    ensures var e := Entries(r.props)[n];
      var out := MemberJson(enc, mode, r, n);
      var x := e.values[j];
      var collapsed := x.Res? && Collapses(enc, e.key) && Len(x.resource.props) == 0;
      && (|e.values| == 1 ==> out == Item(enc, mode, r, n, 0, true))
      && (|e.values| != 1 ==> out.Arr? && |out.items| == |e.values|)
      && var y := if |e.values| == 1 then out else out.items[j];
      && (e.key == PropType && x.Raw? && x.json.Str? ==> y == Str(enc.reduce(x.json.s).name))
      && (x.Raw? && !(e.key == PropType && x.json.Str?) ==> y == x.json)
      && (x.Int? ==> y == Num(x.i))
      && (collapsed ==> y == Str(x.resource.id))
      && (x.Res? && !collapsed && (|e.values| == 1 || mode == Formatted) ==>
            y == FormatResourceIn(enc, mode, x.resource))
      && (x.Res? && !collapsed && |e.values| != 1 && mode == AsWritten ==> y == GoJson(x))
  {
    var vs := Entries(r.props)[n].values;
    var bare := |vs| == 1;
    var y := Item(enc, mode, r, n, j, bare);
    if bare {
      assert j == 0;
    } else {
      assert MemberJson(enc, mode, r, n).items[j] == y;
    }
    ItemMeaning(enc, mode, r, n, j, bare);
  }

  /** The step of `MemberValues` for value j, emitted alone (`bare`) or as
      an array element. */
  lemma ItemMeaning(enc: Encoder, mode: ListMode, r: Resource, n: nat, j: nat, bare: bool)
    requires n < Len(r.props) && j < |Entries(r.props)[n].values|
    ensures var e := Entries(r.props)[n];
      var x := e.values[j];
      var y := Item(enc, mode, r, n, j, bare);
      var collapsed := x.Res? && Collapses(enc, e.key) && Len(x.resource.props) == 0;
      && (e.key == PropType && x.Raw? && x.json.Str? ==> y == Str(enc.reduce(x.json.s).name))
      && (x.Raw? && !(e.key == PropType && x.json.Str?) ==> y == x.json)
      && (x.Int? ==> y == Num(x.i))
      && (collapsed ==> y == Str(x.resource.id))
      && (x.Res? && !collapsed && (bare || mode == Formatted) ==> y == FormatResourceIn(enc, mode, x.resource))
      && (x.Res? && !collapsed && !bare && mode == AsWritten ==> y == GoJson(x))
  {
  }

  /** Distinct term names, none of them a keyword: every context the
      decoder builds, since decoder.go:242 skips keys starting with '@'. */
  predicate PlainTerms(c: Context)
  {
    && Distinct(c.terms)
    && forall n :: 0 <= n < |c.terms| ==> !IsKeyword(c.terms[n].0)
  }

  /** encoder.go:175-198: a scope not loaded from a URL is emitted with
      `@lang`, `@base` and `@vocab` present exactly when non-empty, and each
      term under its own name, as its IRI when it has no properties and as a
      formatted node otherwise. */
  lemma FormatContextMembers(enc: Encoder, mode: ListMode, c: Context)
    requires TermsDefined(c) && PlainTerms(c) && c.url == ""
    ensures var out := FormatContext(enc, mode, Some(c)).members;
      && Find(out, "@lang") == (if c.lang != "" then Some(Str(c.lang)) else None)
      && Find(out, "@base") == (if c.base != "" then Some(Str(c.base)) else None)
      && Find(out, "@vocab") == (if c.vocab != "" then Some(Str(c.vocab)) else None)
      && |out| == |Defaults(c)| + |c.terms|
  {
    var ds := Defaults(c);
    var ts := TermMembers(enc, mode, c);
    ContextObjectFresh(enc, mode, c);
    DefaultsKeywords(c);
    TermMembersKeys(enc, mode, c);
    assert FormatContext(enc, mode, Some(c)).members == ds + ts;
    DefaultKeyOutside(enc, mode, c, "@lang");
    DefaultKeyOutside(enc, mode, c, "@base");
    DefaultKeyOutside(enc, mode, c, "@vocab");
  }

  lemma DefaultKeyOutside(enc: Encoder, mode: ListMode, c: Context, k: string)
    requires TermsDefined(c) && PlainTerms(c) && IsKeyword(k)
    ensures Find(Defaults(c) + TermMembers(enc, mode, c), k) == Find(Defaults(c), k)
  {
    TermMembersKeys(enc, mode, c);
    FindConcat(Defaults(c), TermMembers(enc, mode, c), k);
  }

  /** encoder.go:187-197: each term of such a scope is emitted under its own
      name, as its IRI when it has no properties and as a formatted node
      otherwise. A term named `@lang`, `@base` or `@vocab` is assigned after
      the default of that name and replaces it. */
  lemma FormatContextTerm(enc: Encoder, mode: ListMode, c: Context, n: nat)
    requires TermsDefined(c) && Distinct(c.terms) && c.url == "" && n < |c.terms|
    ensures var t := c.terms[n].1.value;
      Find(FormatContext(enc, mode, Some(c)).members, c.terms[n].0) ==
        Some(if Len(t.props) == 0 then Str(t.id) else FormatResourceIn(enc, mode, t))
  {
    var ts := TermMembers(enc, mode, c);
    TermMembersKeys(enc, mode, c);
    assert ts[n] == (c.terms[n].0, TermJson(enc, mode, c.terms[n].1.value));
    FindPutAll(Defaults(c), ts, c.terms[n].0);
  }

  /** encoder.go:175-186: a name that no term of such a scope carries is
      present only as one of the non-empty defaults. */
  lemma FormatContextOther(enc: Encoder, mode: ListMode, c: Context, k: string)
    requires TermsDefined(c) && Distinct(c.terms) && c.url == "" && k !in Keys(c.terms)
    ensures Find(FormatContext(enc, mode, Some(c)).members, k) ==
      if k == "@lang" && c.lang != "" then Some(Str(c.lang))
      else if k == "@base" && c.base != "" then Some(Str(c.base))
      else if k == "@vocab" && c.vocab != "" then Some(Str(c.vocab))
      else None
  {
    TermMembersKeys(enc, mode, c);
    FindPutAll(Defaults(c), TermMembers(enc, mode, c), k);
    DefaultsKeywords(c);
  }

  /** The terms' names are neither keywords nor repeated, so every
      assignment adds a new member. */
  lemma ContextObjectFresh(enc: Encoder, mode: ListMode, c: Context)
    requires TermsDefined(c) && PlainTerms(c)
    ensures PutAll(Defaults(c), TermMembers(enc, mode, c)) == Defaults(c) + TermMembers(enc, mode, c)
  {
    var ds := Defaults(c);
    var ts := TermMembers(enc, mode, c);
    TermMembersKeys(enc, mode, c);
    DefaultsKeywords(c);
    forall i | 0 <= i < |ds| ensures ds[i].0 !in Keys(ts) {
      assert Keys(ds)[i] == ds[i].0;
    }
    DistinctConcat(ds, ts);
    PutAllFresh(ds, ts);
  }

  /** The term members carry the terms' names, in order. */
  lemma TermMembersKeys(enc: Encoder, mode: ListMode, c: Context)
    requires TermsDefined(c)
    ensures Keys(TermMembers(enc, mode, c)) == Keys(c.terms)
    ensures Distinct(c.terms) ==> Distinct(TermMembers(enc, mode, c))
    ensures PlainTerms(c) ==> forall k :: k in Keys(c.terms) ==> !IsKeyword(k)
  {
    var ts := TermMembers(enc, mode, c);
    assert forall i :: 0 <= i < |ts| ==> ts[i].0 == c.terms[i].0;
    assert Keys(ts) == Keys(c.terms);
  }

  /** The defaults are keyed by distinct keywords, each present exactly
      when its value is non-empty. */
  lemma DefaultsKeywords(c: Context)
    ensures forall k :: k in Keys(Defaults(c)) ==> k == "@lang" || k == "@base" || k == "@vocab"
    ensures forall k :: k in Keys(Defaults(c)) ==> IsKeyword(k)
    ensures Distinct(Defaults(c))
    ensures Find(Defaults(c), "@lang") == (if c.lang != "" then Some(Str(c.lang)) else None)
    ensures Find(Defaults(c), "@base") == (if c.base != "" then Some(Str(c.base)) else None)
    ensures Find(Defaults(c), "@vocab") == (if c.vocab != "" then Some(Str(c.vocab)) else None)
  {
    assert "@lang"[1] == 'l' && "@base"[1] == 'b' && "@vocab"[1] == 'v';
    assert Defaults(c) == Optional("@lang", c.lang) + Optional("@base", c.base) + Optional("@vocab", c.vocab);
    OptionalFind("@lang", c.lang, "@base", c.base, "@vocab", c.vocab);
    OptionalKeys("@lang", c.lang, "@base", c.base, "@vocab", c.vocab);
    assert "@lang"[0] == '@' && "@base"[0] == '@' && "@vocab"[0] == '@';
  }

  /** One default member: present exactly when its value is non-empty. */
  function Optional(k: string, s: string): seq<(string, Json)>
  {
    if s != "" then [(k, Str(s))] else []
  }

  /** Three optional members under three different keys: each key finds
      its own member, present exactly when its value is non-empty. */
  lemma OptionalFind(k1: string, s1: string, k2: string, s2: string, k3: string, s3: string)
    requires k1 != k2 && k1 != k3 && k2 != k3
    ensures var d := Optional(k1, s1) + Optional(k2, s2) + Optional(k3, s3);
      && Find(d, k1) == (if s1 != "" then Some(Str(s1)) else None)
      && Find(d, k2) == (if s2 != "" then Some(Str(s2)) else None)
      && Find(d, k3) == (if s3 != "" then Some(Str(s3)) else None)
  {
    OptionalKeys(k1, s1, k2, s2, k3, s3);
    var l, b, v := Optional(k1, s1), Optional(k2, s2), Optional(k3, s3);
    FindConcat(l + b, v, k1);
    FindConcat(l, b, k1);
    FindConcat(l + b, v, k2);
    FindConcat(l, b, k2);
    FindConcat(l + b, v, k3);
    FindConcat(l, b, k3);
  }

  /** The keys of three optional members are those of the present ones. */
  lemma OptionalKeys(k1: string, s1: string, k2: string, s2: string, k3: string, s3: string)
    requires k1 != k2 && k1 != k3 && k2 != k3
    ensures var d := Optional(k1, s1) + Optional(k2, s2) + Optional(k3, s3);
      && Distinct(d)
      && (forall k :: k in Keys(d) ==> k == k1 || k == k2 || k == k3)
  {
    var l, b, v := Optional(k1, s1), Optional(k2, s2), Optional(k3, s3);
    assert Keys(l + b + v) == Keys(l) + Keys(b) + Keys(v);
  }
}
