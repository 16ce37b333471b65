/** Decoding raw JSON into the node model (decoder.go). */
module Decoder {
  import opened Results
  import opened Assoc
  import opened RawJson
  import opened Vocabulary
  import opened Node
  import opened Contexts

  /** decoder.go:13: fetches the context published at a URL. It may
      return a nil context. */
  type FetchFunc = string -> Result<Option<Context>>

  /** decoder.go:268-274: a string @context is handed to the fetch function,
      whose result replaces the current scope; without a fetch function it is
      an error. */
  function FetchContext(fetch: Option<FetchFunc>, ctx: Option<Context>, url: string): (r: Result<Option<Context>>)
    ensures fetch.None? ==> r == Err(RemoteContextsDisabled)
    ensures fetch.Some? ==> r == fetch.value(url)
  {
    match fetch
    case None => Err(RemoteContextsDisabled)
    case Some(f) => f(url)
  }

  /** decoder.go:188-191: the values under a key are an array's elements, or
      the bare value alone. */
  function ValueList(v: Json): (vs: seq<Json>)
    ensures v.Arr? ==> vs == v.items
    ensures !v.Arr? ==> vs == [v]
  {
    if v.Arr? then v.items else [v]
  }

  /** decoder.go:79-81: an object's literal is its `@value` member (nil when
      missing); any other value is its own literal. */
  function Literal(v: Json): Json
  {
    if v.Obj? then
      var x := Find(v.members, "@value");
      if x.Some? then x.value else Null
    else v
  }

  /** decoder.go:82-91: the caller's hint, unless it is empty and the value
      is an object carrying its own `@type` (a string, or an array whose first
      element is a string). */
  function EffectiveHint(v: Json, hint: string): (t: string)
    ensures hint != "" ==> t == hint
    ensures !v.Obj? ==> t == hint
    ensures hint == "" && v.Obj? && Find(v.members, "@type").Some? && Find(v.members, "@type").value.Str? ==>
      t == Find(v.members, "@type").value.s
    ensures hint == "" && v.Obj? && Find(v.members, "@type").Some? && Find(v.members, "@type").value.Arr? ==>
      var xs := Find(v.members, "@type").value.items;
      t == if |xs| > 0 && xs[0].Str? then xs[0].s else ""
    ensures hint == "" && v.Obj? && Find(v.members, "@type").Some? ==>
      (!Find(v.members, "@type").value.Str? && !Find(v.members, "@type").value.Arr? ==> t == "")
    ensures hint == "" && v.Obj? && Find(v.members, "@type").None? ==> t == ""
  {
    if hint != "" || !v.Obj? then hint
    else
      var ty := Find(v.members, "@type");
      if ty.None? then hint
      else match ty.value
        case Str(s) => s
        case Arr(xs) => if |xs| > 0 && xs[0].Str? then xs[0].s else hint
        case _ => hint
  }

  /** decoder.go:179: the coercion a term declares, its first `rdf:type`
      value when that is a string. */
  function TermHint(term: Resource): string
  {
    var t := Get(term.props, PropType);
    if t.Raw? && t.json.Str? then t.json.s else ""
  }

  /** decoder.go:159-186: the property IRI a key is stored under, with the
      hint for its values; None for a reserved key that is skipped. */
  function ResolveKey(ctx: Option<Context>, k: string): (r: Option<(string, string)>)
    ensures r.None? <==> k != "@type" && IsKeyword(k)
    ensures (k == "@type" || k == PropType) ==> r == Some((PropType, TypeAnyUri))
    ensures ctx.None? && !IsKeyword(k) && k != PropType ==> r == Some((k, ""))
    ensures ctx.Some? && !IsKeyword(k) && k != PropType ==>
      var found := Find(ctx.value.terms, k);
      r == if found.None? then Some((Expand(ctx, k), ""))
           else if found.value.None? then Some((k, ""))
           else if found.value.value.id != "" then Some((Expand(ctx, found.value.value.id), TermHint(found.value.value)))
           else Some((Expand(ctx, k), TermHint(found.value.value)))
  {
    var key := if k == "@type" then PropType else k;
    assert PropType[0] == 'h';
    if IsKeyword(key) then None
    else if key == PropType then Some((PropType, TypeAnyUri))
    else match ctx
      case None => Some((key, ""))
      case Some(c) =>
        var found := Find(c.terms, key);
        if found.None? then Some((Expand(ctx, key), ""))
        else match found.value
          case None => Some((key, ""))
          case Some(term) =>
            var iri := if term.id != "" then Expand(ctx, term.id) else Expand(ctx, key);
            Some((iri, TermHint(term)))
  }

  /** decoder.go:155-157: the node's IRI, from a string `@id`. */
  function IdOf(scope: Option<Context>, m: seq<(string, Json)>): string
  {
    var rawId := Find(m, "@id");
    if rawId.Some? && rawId.value.Str? then Expand(scope, rawId.value.s) else ""
  }

  lemma ItemSmaller(m: seq<(string, Json)>, i: nat, j: nat)
    requires i < |m| && j < |ValueList(m[i].1)|
    ensures ValueList(m[i].1)[j] < Obj(m)
  {
    assert m[i] in m;
  }

  /** decoder.go:77-143: interpret `v` under the hint `hint`. */
  function Parse(fetch: Option<FetchFunc>, ctx: Option<Context>, v: Json, hint: string): Result<Value>
    decreases v, 5
  {
    var t := EffectiveHint(v, hint);
    var x := Literal(v);
    if t == "@id" then
      if v.Obj? then
        var r :- ParseResource(fetch, ctx, v.members);
        Ok(Res(r))
      else if x.Str? then Ok(Res(Resource(x.s, Unallocated)))
      else Err(ExpectedId)
    else if t == TypeString then
      if x.Str? then Ok(Raw(x)) else Err(ExpectedString)
    else if t == TypeInteger then
      if x.Num? then Ok(Int(x.n)) else Err(ExpectedInteger)
    else if t == TypeBoolean then
      if x.Bool? then Ok(Raw(x)) else Err(ExpectedBoolean)
    else if t == TypeDouble then
      if x.Num? then Ok(Raw(x)) else Err(ExpectedDouble)
    else if t == TypeAnyUri then
      if x.Str? then Ok(Raw(Str(Expand(ctx, x.s)))) else Err(ExpectedUri)
    else if v.Obj? then
      var r :- ParseResource(fetch, ctx, v.members);
      Ok(Res(r))
    else Ok(Raw(v))
  }

  /** decoder.go:145-206: an object becomes a node. An embedded `@context`
      scopes this object and its values only. */
  function ParseResource(fetch: Option<FetchFunc>, ctx: Option<Context>, m: seq<(string, Json)>): Result<Resource>
    decreases Obj(m), 4
  {
    var scope :- Scope(fetch, ctx, m);
    var found :- ParseMembers(fetch, scope, m, 0);
    Ok(Resource(IdOf(scope, m), Collect(Unallocated, found)))
  }

  /** decoder.go:147-153: the scope of an object, its own `@context` parsed
      against the enclosing scope when it has one. */
  function Scope(fetch: Option<FetchFunc>, ctx: Option<Context>, m: seq<(string, Json)>): Result<Option<Context>>
    decreases Obj(m), 3
  {
    var rawCtx := Find(m, "@context");
    if rawCtx.Some? then
      MemberSmaller(m, "@context");
      ParseContext(fetch, ctx, rawCtx.value)
    else Ok(ctx)
  }

  /** decoder.go:159-203: the parsed values of members i.., one entry per
      member that is not skipped, in member order; the first error aborts. */
  function ParseMembers(fetch: Option<FetchFunc>, scope: Option<Context>, m: seq<(string, Json)>, i: nat)
    : Result<seq<Entry>>
    decreases Obj(m), 3, |m| - i
  {
    if i >= |m| then Ok([])
    else
      var here :- ParseMember(fetch, scope, m, i);
      var rest :- ParseMembers(fetch, scope, m, i + 1);
      Ok(here + rest)
  }

  /** decoder.go:159-197: member i as an entry under its resolved key, or
      nothing when the key is skipped. */
  function ParseMember(fetch: Option<FetchFunc>, scope: Option<Context>, m: seq<(string, Json)>, i: nat)
    : Result<seq<Entry>>
    requires i < |m|
    decreases Obj(m), 2
  {
    var resolved := ResolveKey(scope, m[i].0);
    if resolved.None? then Ok([])
    else
      var vs :- ParseList(fetch, scope, m, i, resolved.value.1, 0);
      Ok([Entry(resolved.value.0, vs)])
  }

  /** decoder.go:188-197: the values j.. under member i, each parsed with the
      key's hint; the first error aborts. */
  function ParseList(fetch: Option<FetchFunc>, scope: Option<Context>, m: seq<(string, Json)>, i: nat, t: string, j: nat)
    : Result<seq<Value>>
    requires i < |m|
    decreases Obj(m), 1, |m| - i, |ValueList(m[i].1)| - j
  {
    var items := ValueList(m[i].1);
    if j >= |items| then Ok([])
    else
      ItemSmaller(m, i, j);
      var x :- Parse(fetch, scope, items[j], t);
      var rest :- ParseList(fetch, scope, m, i, t, j + 1);
      Ok([x] + rest)
  }

  /** decoder.go:208-226. */
  function ParseContext(fetch: Option<FetchFunc>, ctx: Option<Context>, v: Json): Result<Option<Context>>
    decreases v, 5
  {
    match v
    case Arr(xs) => ParseContextArray(fetch, ctx, xs, 0)
    case Obj(m) =>
      var c :- ParseContextMap(fetch, ctx, m);
      Ok(Some(c))
    case Str(url) => FetchContext(fetch, ctx, url)
    case _ => Err(MalformedContext)
  }

  /** decoder.go:211-217: the elements j.. of an @context array, applied
      left to right. */
  function ParseContextArray(fetch: Option<FetchFunc>, ctx: Option<Context>, xs: seq<Json>, j: nat)
    : Result<Option<Context>>
    decreases Arr(xs), 4, |xs| - j
  {
    if j >= |xs| then Ok(ctx)
    else
      var next :- ParseContext(fetch, ctx, xs[j]);
      ParseContextArray(fetch, next, xs, j + 1)
  }

  /** decoder.go:228-266 (and its copy context.go:42-80): a child scope of
      `ctx` with the object's defaults and term definitions. */
  function ParseContextMap(fetch: Option<FetchFunc>, ctx: Option<Context>, m: seq<(string, Json)>): Result<Context>
    decreases Obj(m), 4
  {
    var child := NewChild(ctx, None);
    var lang := Find(m, "@lang");
    var base := Find(m, "@base");
    var vocab := Find(m, "@vocab");
    var scoped := child.(
      lang := if lang.Some? && lang.value.Str? then lang.value.s else child.lang,
      base := if base.Some? && base.value.Str? then base.value.s else child.base,
      vocab := if vocab.Some? && vocab.value.Str? then vocab.value.s else child.vocab);
    var terms :- ParseTerms(fetch, m, 0, scoped.terms);
    Ok(scoped.(terms := terms))
  }

  /** decoder.go:241-263: members i.. that are not keywords become terms. */
  function ParseTerms(fetch: Option<FetchFunc>, m: seq<(string, Json)>, i: nat, terms: seq<(string, Option<Resource>)>)
    : Result<seq<(string, Option<Resource>)>>
    decreases Obj(m), 3, |m| - i
  {
    if i >= |m| then Ok(terms)
    else if IsKeyword(m[i].0) then ParseTerms(fetch, m, i + 1, terms)
    else
      var term :- TermDefinition(fetch, m[i].1);
      ParseTerms(fetch, m, i + 1, Put(terms, m[i].0, term))
  }

  /** decoder.go:246-261: a term's definition is parsed with no scope and no
      hint; a node is the term, a string is a term with that IRI, null is a
      nil term, and anything else is malformed. */
  function TermDefinition(fetch: Option<FetchFunc>, v: Json): Result<Option<Resource>>
    decreases v, 6
  {
    var parsed :- Parse(fetch, None, v, "");
    match parsed
    case Res(r) => Ok(Some(r))
    case Raw(j) =>
      if j.Str? then Ok(Some(Resource(j.s, Unallocated)))
      else if j.Null? then Ok(None)
      else Err(MalformedContextValue)
    case Int(_) => Err(MalformedContextValue)
  }

  /** decoder.go:58-67: the decoder parses the document with NO scope; its
      own `Context` field only matters to the reflection binder. */
  function Decode(fetch: Option<FetchFunc>, raw: Json): Result<Value>
  {
    Parse(fetch, None, raw, "")
  }
}
