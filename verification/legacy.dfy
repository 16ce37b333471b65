/** The older object decoder of resource.go: an embedded `@context` must be
    an object, and the property map is always allocated. */
module Legacy {
  import opened Results
  import opened Assoc
  import opened RawJson
  import opened Node
  import opened Contexts
  import opened Decoder
  import opened DecoderProps

  /** resource.go:17-29: the scope of an object. Only an object `@context`
      is understood; a string, array or other value is malformed. */
  function LegacyScope(fetch: Option<FetchFunc>, ctx: Option<Context>, m: seq<(string, Json)>)
    : (r: Result<Option<Context>>)
    ensures Find(m, "@context").None? ==> r == Ok(ctx)
    ensures Find(m, "@context").Some? && !Find(m, "@context").value.Obj? ==> r == Err(MalformedContext)
  {
    var rawCtx := Find(m, "@context");
    if rawCtx.None? then Ok(ctx)
    else match rawCtx.value
      case Obj(cm) =>
        var c :- ParseContextMap(fetch, ctx, cm);
        Ok(Some(c))
      case _ => Err(MalformedContext)
  }

  /** resource.go:14-81. The members are resolved and parsed as by the
      decoder, but into a map allocated up front. */
  function LegacyParseResource(fetch: Option<FetchFunc>, ctx: Option<Context>, m: seq<(string, Json)>)
    : (r: Result<Resource>)
    ensures r.Ok? ==> r.value.props.Allocated?
    ensures Find(m, "@context").Some? && !Find(m, "@context").value.Obj? ==> r == Err(MalformedContext)
  {
    var scope :- LegacyScope(fetch, ctx, m);
    var found :- ParseMembers(fetch, scope, m, 0);
    CollectEntries(Unallocated, found);
    Ok(Resource(IdOf(scope, m), Collect(Allocated([]), found)))
  }

  /** Where both accept the `@context` (none, or an object), the older
      decoder and decoder.go agree on the IRI and on every property and fail
      with the same error; they differ only in that the older one never
      leaves the map nil. */
  lemma AgreesWithDecoder(fetch: Option<FetchFunc>, ctx: Option<Context>, m: seq<(string, Json)>)
    requires Find(m, "@context").None? || Find(m, "@context").value.Obj?
    ensures LegacyParseResource(fetch, ctx, m) ==
      match ParseResource(fetch, ctx, m)
      case Ok(r) => Ok(r.(props := Allocated(Entries(r.props))))
      case Err(e) => Err(e)
  {
    var rawCtx := Find(m, "@context");
    if rawCtx.Some? {
      ParseContextKinds(fetch, ctx, rawCtx.value);
    }
    assert LegacyScope(fetch, ctx, m) == Scope(fetch, ctx, m);
    var scope := Scope(fetch, ctx, m);
    if scope.Ok? {
      var found := ParseMembers(fetch, scope.value, m, 0);
      if found.Ok? {
        CollectEntries(Unallocated, found.value);
      }
    }
  }

  /** resource.go:15, 76: the map is allocated even when nothing is
      stored, where decoder.go leaves it nil. */
  lemma EmptyObjectAllocated(fetch: Option<FetchFunc>, ctx: Option<Context>)
    ensures LegacyParseResource(fetch, ctx, []) == Ok(Resource("", Allocated([])))
    ensures ParseResource(fetch, ctx, []) == Ok(Resource("", Unallocated))
  {
  }
}
