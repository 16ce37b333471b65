/** What the decoder promises (decoder.go), stated over all inputs. */
module DecoderProps {
  import opened Results
  import opened Assoc
  import opened RawJson
  import opened Vocabulary
  import opened Node
  import opened Contexts
  import opened Decoder

  // ----- Hint dispatch (decoder.go:77-143) -----

  /** decoder.go:95-102: under the `@id` hint an object becomes a node, a
      string becomes a node with that IRI, unexpanded and without
      properties, and anything else is an error. */
  lemma ParseIdHint(fetch: Option<FetchFunc>, ctx: Option<Context>, v: Json)
    ensures v.Obj? ==> (Parse(fetch, ctx, v, "@id") ==
      match ParseResource(fetch, ctx, v.members) case Ok(r) => Ok(Res(r)) case Err(e) => Err(e))
    ensures v.Str? ==> Parse(fetch, ctx, v, "@id") == Ok(Res(Resource(v.s, Unallocated)))
    ensures !v.Obj? && !v.Str? ==> Parse(fetch, ctx, v, "@id") == Err(ExpectedId)
  {
  }

  /** decoder.go:103-128: the scalar hints accept exactly their own kind of
      literal (an object's literal being its `@value`), a JSON number
      standing for both integers and doubles; an integer becomes `Int`. */
  lemma ParseScalarHints(fetch: Option<FetchFunc>, ctx: Option<Context>, v: Json)
    ensures var x := Literal(v);
      && Parse(fetch, ctx, v, TypeString) == (if x.Str? then Ok(Raw(x)) else Err(ExpectedString))
      && Parse(fetch, ctx, v, TypeBoolean) == (if x.Bool? then Ok(Raw(x)) else Err(ExpectedBoolean))
      && Parse(fetch, ctx, v, TypeInteger) == (if x.Num? then Ok(Int(x.n)) else Err(ExpectedInteger))
      && Parse(fetch, ctx, v, TypeDouble) == (if x.Num? then Ok(Raw(x)) else Err(ExpectedDouble))
  {
    ParseTextHints(fetch, ctx, v);
    ParseNumberHints(fetch, ctx, v);
  }

  /** The string and boolean hints. */
  lemma ParseTextHints(fetch: Option<FetchFunc>, ctx: Option<Context>, v: Json)
    ensures var x := Literal(v);
      && Parse(fetch, ctx, v, TypeString) == (if x.Str? then Ok(Raw(x)) else Err(ExpectedString))
      && Parse(fetch, ctx, v, TypeBoolean) == (if x.Bool? then Ok(Raw(x)) else Err(ExpectedBoolean))
  {
    HintsDistinct();
  }

  /** The integer and double hints. */
  lemma ParseNumberHints(fetch: Option<FetchFunc>, ctx: Option<Context>, v: Json)
    ensures var x := Literal(v);
      && Parse(fetch, ctx, v, TypeInteger) == (if x.Num? then Ok(Int(x.n)) else Err(ExpectedInteger))
      && Parse(fetch, ctx, v, TypeDouble) == (if x.Num? then Ok(Raw(x)) else Err(ExpectedDouble))
  {
    HintsDistinct();
  }

  /** decoder.go:129-135: under `xsd:anyURI` a string literal is expanded
      against the scope and anything else is an error. */
  lemma ParseAnyUri(fetch: Option<FetchFunc>, ctx: Option<Context>, v: Json)
    ensures var x := Literal(v);
      Parse(fetch, ctx, v, TypeAnyUri) == if x.Str? then Ok(Raw(Str(Expand(ctx, x.s)))) else Err(ExpectedUri)
  {
    HintsDistinct();
  }

  /** decoder.go:136-141: with no hint, or one `parse` does not know, an
      object becomes a node and any other value passes through unchanged. */
  lemma ParseUnhinted(fetch: Option<FetchFunc>, ctx: Option<Context>, v: Json, hint: string)
    requires !IsRecognisedHint(EffectiveHint(v, hint))
    ensures v.Obj? ==> (Parse(fetch, ctx, v, hint) ==
      match ParseResource(fetch, ctx, v.members) case Ok(r) => Ok(Res(r)) case Err(e) => Err(e))
    ensures !v.Obj? ==> Parse(fetch, ctx, v, hint) == Ok(Raw(v))
  {
  }

  /** decoder.go:82-92: an object's own `@type` decides how it is read when
      the caller gives no hint; for example a typed `@value` literal. */
  lemma TypedLiteral(fetch: Option<FetchFunc>, ctx: Option<Context>, n: int)
    ensures Parse(fetch, ctx, Obj([("@type", Str(TypeInteger)), ("@value", Num(n))]), "") == Ok(Int(n))
    ensures Parse(fetch, ctx, Obj([("@type", Str(TypeInteger)), ("@value", Str("7"))]), "") == Err(ExpectedInteger)
  {
    TypedInteger(fetch, ctx, Num(n));
    TypedInteger(fetch, ctx, Str("7"));
  }

  /** An object typed `xsd:integer` is read as its `@value` under that hint. */
  lemma TypedInteger(fetch: Option<FetchFunc>, ctx: Option<Context>, x: Json)
    requires !x.Obj?
    ensures Parse(fetch, ctx, Obj([("@type", Str(TypeInteger)), ("@value", x)]), "") ==
      if x.Num? then Ok(Int(x.n)) else Err(ExpectedInteger)
  {
    var m := [("@type", Str(TypeInteger)), ("@value", x)];
    assert Find(m, "@type") == Some(Str(TypeInteger));
    assert Find(m, "@value") == Some(x);
    ParseNumberHints(fetch, ctx, Obj(m));
  }

  // ----- Values of a key (decoder.go:188-197) -----

  /** The parses of the values under member i, from the j-th on. */
  function ItemParses(fetch: Option<FetchFunc>, scope: Option<Context>, m: seq<(string, Json)>, i: nat, t: string, j: nat)
    : seq<Result<Value>>
    requires i < |m| && j <= |ValueList(m[i].1)|
  {
    var items := ValueList(m[i].1);
    seq(|items| - j, k requires 0 <= k < |items| - j => Parse(fetch, scope, items[j + k], t))
  }

  /** Dropping the first parse leaves the parses from the next item on. */
  lemma ItemParsesTail(fetch: Option<FetchFunc>, scope: Option<Context>, m: seq<(string, Json)>,
                       i: nat, t: string, j: nat)
    requires i < |m| && j < |ValueList(m[i].1)|
    ensures var rs := ItemParses(fetch, scope, m, i, t, j);
      && rs[0] == Parse(fetch, scope, ValueList(m[i].1)[j], t)
      && rs[1..] == ItemParses(fetch, scope, m, i, t, j + 1)
  {
    var rs := ItemParses(fetch, scope, m, i, t, j);
    var tail := ItemParses(fetch, scope, m, i, t, j + 1);
    assert |rs[1..]| == |tail|;
    forall k | 0 <= k < |tail| ensures rs[1..][k] == tail[k] {
      assert rs[1..][k] == rs[k + 1];
    }
  }

  lemma {:induction false} ParseListGathers(fetch: Option<FetchFunc>, scope: Option<Context>, m: seq<(string, Json)>,
                                            i: nat, t: string, j: nat)
    requires i < |m| && j <= |ValueList(m[i].1)|
    ensures ParseList(fetch, scope, m, i, t, j) == Gather(ItemParses(fetch, scope, m, i, t, j))
    decreases |ValueList(m[i].1)| - j
  {
    var items := ValueList(m[i].1);
    var rs := ItemParses(fetch, scope, m, i, t, j);
    if j < |items| {
      ParseListGathers(fetch, scope, m, i, t, j + 1);
      ItemParsesTail(fetch, scope, m, i, t, j);
      GatherStep(rs);
      ParseListStep(fetch, scope, m, i, t, j);
    } else {
      assert rs == [];
    }
  }

  /** One step of `ParseList`: the first value's error, or its value before
      the rest. */
  lemma ParseListStep(fetch: Option<FetchFunc>, scope: Option<Context>, m: seq<(string, Json)>,
                      i: nat, t: string, j: nat)
    requires i < |m| && j < |ValueList(m[i].1)|
    ensures var p := Parse(fetch, scope, ValueList(m[i].1)[j], t);
      var rest := ParseList(fetch, scope, m, i, t, j + 1);
      ParseList(fetch, scope, m, i, t, j) ==
        if p.Err? then Err(p.error)
        else if rest.Err? then Err(rest.error)
        else Ok([p.value] + rest.value)
  {
  }

  /** decoder.go:188-197: a bare value is a one-element list; the list is
      parsed one value at a time with the key's hint, and the result keeps
      array order. Parsing succeeds exactly when every value parses, and
      otherwise fails with the error of the first value that does not. */
  lemma ParseListValues(fetch: Option<FetchFunc>, scope: Option<Context>, m: seq<(string, Json)>, i: nat, t: string)
    requires i < |m|
    ensures var items := ValueList(m[i].1);
      var r := ParseList(fetch, scope, m, i, t, 0);
      && (r.Ok? <==> forall k :: 0 <= k < |items| ==> Parse(fetch, scope, items[k], t).Ok?)
      && (r.Ok? ==> (|r.value| == |items| &&
            forall k :: 0 <= k < |items| ==> r.value[k] == Parse(fetch, scope, items[k], t).value))
      && (r.Err? ==> exists k :: (0 <= k < |items| && Parse(fetch, scope, items[k], t) == Err(r.error) &&
            forall k' :: 0 <= k' < k ==> Parse(fetch, scope, items[k'], t).Ok?))
  {
    var rs := ItemParses(fetch, scope, m, i, t, 0);
    ParseListGathers(fetch, scope, m, i, t, 0);
    ItemParsesAt(fetch, scope, m, i, t);
    GatherSpec(rs);
  }

  /** The k-th parse is that of the k-th value. */
  lemma ItemParsesAt(fetch: Option<FetchFunc>, scope: Option<Context>, m: seq<(string, Json)>, i: nat, t: string)
    requires i < |m|
    ensures var rs := ItemParses(fetch, scope, m, i, t, 0);
      && |rs| == |ValueList(m[i].1)|
      && forall k :: 0 <= k < |rs| ==> rs[k] == Parse(fetch, scope, ValueList(m[i].1)[k], t)
  {
  }

  // ----- Members of an object (decoder.go:159-203) -----

  /** The parses of members i.. of an object. */
  function MemberParses(fetch: Option<FetchFunc>, scope: Option<Context>, m: seq<(string, Json)>, i: nat)
    : seq<Result<seq<Entry>>>
    requires i <= |m|
  {
    seq(|m| - i, k requires 0 <= k < |m| - i => ParseMember(fetch, scope, m, i + k))
  }

  /** decoder.go:159-203: the members are parsed one by one and their entries
      collected in member order; the first error aborts. */
  lemma {:induction false} ParseMembersGathers(fetch: Option<FetchFunc>, scope: Option<Context>, m: seq<(string, Json)>, i: nat)
    requires i <= |m|
    ensures ParseMembers(fetch, scope, m, i) ==
      match Gather(MemberParses(fetch, scope, m, i))
      case Ok(ss) => Ok(Concat(ss))
      case Err(e) => Err(e)
    decreases |m| - i
  {
    if i < |m| {
      ParseMembersGathers(fetch, scope, m, i + 1);
      assert MemberParses(fetch, scope, m, i)[1..] == MemberParses(fetch, scope, m, i + 1);
    }
  }

  // ----- The node built from an object (decoder.go:145-206) -----

  /** decoder.go:145-157: the object's own `@context` is parsed first and its
      error aborts; then the members are parsed in the resulting scope. The
      node's IRI is a string `@id` expanded in that scope, and "" when `@id`
      is missing or not a string. */
  lemma ParseResourceOutcome(fetch: Option<FetchFunc>, ctx: Option<Context>, m: seq<(string, Json)>)
    ensures var scope := Scope(fetch, ctx, m);
      && (scope.Err? ==> ParseResource(fetch, ctx, m) == Err(scope.error))
      && (scope.Ok? ==> (ParseResource(fetch, ctx, m).Ok? <==> ParseMembers(fetch, scope.value, m, 0).Ok?))
    ensures var r := ParseResource(fetch, ctx, m);
      var rawId := Find(m, "@id");
      r.Ok? ==> r.value.id == (if rawId.Some? && rawId.value.Str? then Expand(Scope(fetch, ctx, m).value, rawId.value.s) else "")
  {
  }

  /** The values member i stores under the IRI `k`: its parsed list when it
      resolves to `k`, nothing otherwise. */
  function MemberValuesUnder(fetch: Option<FetchFunc>, scope: Option<Context>, m: seq<(string, Json)>, i: nat, k: string)
    : seq<Value>
    requires i < |m|
  {
    var rk := ResolveKey(scope, m[i].0);
    if rk.Some? && rk.value.0 == k then
      var vs := ParseList(fetch, scope, m, i, rk.value.1, 0);
      if vs.Ok? then vs.value else []
    else []
  }

  /** A member that parses yields no entry when its key is skipped, and
      otherwise one entry under its resolved IRI holding one value per JSON
      value. */
  lemma MemberEntries(fetch: Option<FetchFunc>, scope: Option<Context>, m: seq<(string, Json)>, i: nat)
    requires i < |m| && ParseMember(fetch, scope, m, i).Ok?
    ensures var rk := ResolveKey(scope, m[i].0);
      var es := ParseMember(fetch, scope, m, i).value;
      && (rk.None? ==> es == [])
      && (rk.Some? ==> (ParseList(fetch, scope, m, i, rk.value.1, 0).Ok? &&
            es == [Entry(rk.value.0, ParseList(fetch, scope, m, i, rk.value.1, 0).value)] &&
            |es[0].values| == |ValueList(m[i].1)|))
  {
    var rk := ResolveKey(scope, m[i].0);
    if rk.Some? {
      ParseListValues(fetch, scope, m, i, rk.value.1);
    }
  }

  /** The entries found in an object that parses, member by member. */
  lemma FoundEntries(fetch: Option<FetchFunc>, scope: Option<Context>, m: seq<(string, Json)>)
    requires ParseMembers(fetch, scope, m, 0).Ok?
    ensures var mp := MemberParses(fetch, scope, m, 0);
      && Gather(mp).Ok?
      && |Gather(mp).value| == |m|
      && ParseMembers(fetch, scope, m, 0).value == Concat(Gather(mp).value)
      && forall i :: 0 <= i < |m| ==>
           ParseMember(fetch, scope, m, i).Ok? && Gather(mp).value[i] == ParseMember(fetch, scope, m, i).value
  {
    var mp := MemberParses(fetch, scope, m, 0);
    ParseMembersGathers(fetch, scope, m, 0);
    GatherSpec(mp);
    assert forall i :: 0 <= i < |m| ==> mp[i] == ParseMember(fetch, scope, m, i);
  }

  /** decoder.go:188-202: the list a node holds under an IRI is the values of
      every member that resolves to that IRI, each member's values in array
      order, members in object order. */
  lemma ParseResourceValues(fetch: Option<FetchFunc>, ctx: Option<Context>, m: seq<(string, Json)>, k: string)
    requires ParseResource(fetch, ctx, m).Ok?
    ensures Scope(fetch, ctx, m).Ok?
    ensures var scope := Scope(fetch, ctx, m).value;
      ValuesOf(ParseResource(fetch, ctx, m).value.props, k) ==
        Concat(seq(|m|, i requires 0 <= i < |m| => MemberValuesUnder(fetch, scope, m, i, k)))
  {
    var scope := Scope(fetch, ctx, m).value;
    var found := ParseMembers(fetch, scope, m, 0).value;
    FoundEntries(fetch, scope, m);
    var ss := Gather(MemberParses(fetch, scope, m, 0)).value;
    CollectValues(Unallocated, found, k);
    ValuesForConcat(ss, k);
    forall i | 0 <= i < |m| ensures ValuesFor(ss[i], k) == MemberValuesUnder(fetch, scope, m, i, k) {
      MemberEntries(fetch, scope, m, i);
      var rk := ResolveKey(scope, m[i].0);
      if rk.Some? {
        var e := ss[i][0];
        assert ValuesFor(ss[i], k) == (if e.key == k then e.values else []) + ValuesFor([], k);
      }
    }
    assert seq(|ss|, i requires 0 <= i < |ss| => ValuesFor(ss[i], k)) ==
      seq(|m|, i requires 0 <= i < |m| => MemberValuesUnder(fetch, scope, m, i, k));
  }

  /** decoder.go:198-201: a decoded node's property map has distinct keys
      even when several members resolve to the same IRI. */
  lemma ParseResourceDistinct(fetch: Option<FetchFunc>, ctx: Option<Context>, m: seq<(string, Json)>)
    requires ParseResource(fetch, ctx, m).Ok?
    ensures DistinctKeys(ParseResource(fetch, ctx, m).value.props)
  {
    var scope := Scope(fetch, ctx, m).value;
    CollectDistinct(Unallocated, ParseMembers(fetch, scope, m, 0).value);
  }

  /** decoder.go:145, 198-201: the property map stays nil exactly when no
      member that is kept has a value. */
  lemma ParseResourceAllocated(fetch: Option<FetchFunc>, ctx: Option<Context>, m: seq<(string, Json)>)
    requires ParseResource(fetch, ctx, m).Ok?
    ensures Scope(fetch, ctx, m).Ok?
    ensures var scope := Scope(fetch, ctx, m).value;
      ParseResource(fetch, ctx, m).value.props.Allocated? <==>
        exists i :: 0 <= i < |m| && ResolveKey(scope, m[i].0).Some? && |ValueList(m[i].1)| > 0
  {
    var scope := Scope(fetch, ctx, m).value;
    var found := ParseMembers(fetch, scope, m, 0).value;
    CollectUnallocated(Unallocated, found);
    if exists n :: 0 <= n < |found| && |found[n].values| > 0 {
      var n :| 0 <= n < |found| && |found[n].values| > 0;
      FoundFromMember(fetch, scope, m, n);
    }
    if exists i :: 0 <= i < |m| && ResolveKey(scope, m[i].0).Some? && |ValueList(m[i].1)| > 0 {
      var i :| 0 <= i < |m| && ResolveKey(scope, m[i].0).Some? && |ValueList(m[i].1)| > 0;
      MemberIsFound(fetch, scope, m, i);
    }
  }

  /** Every entry found comes from a kept member with as many JSON values. */
  lemma FoundFromMember(fetch: Option<FetchFunc>, scope: Option<Context>, m: seq<(string, Json)>, n: nat)
    requires ParseMembers(fetch, scope, m, 0).Ok? && n < |ParseMembers(fetch, scope, m, 0).value|
    ensures exists i :: (0 <= i < |m| && ResolveKey(scope, m[i].0).Some? &&
      |ValueList(m[i].1)| == |ParseMembers(fetch, scope, m, 0).value[n].values|)
  {
    var found := ParseMembers(fetch, scope, m, 0).value;
    FoundEntries(fetch, scope, m);
    var ss := Gather(MemberParses(fetch, scope, m, 0)).value;
    InConcat(ss, found[n]);
    var i :| 0 <= i < |ss| && found[n] in ss[i];
    MemberEntries(fetch, scope, m, i);
  }

  /** Every kept member contributes an entry with one value per JSON value. */
  lemma MemberIsFound(fetch: Option<FetchFunc>, scope: Option<Context>, m: seq<(string, Json)>, i: nat)
    requires ParseMembers(fetch, scope, m, 0).Ok? && i < |m| && ResolveKey(scope, m[i].0).Some?
    ensures exists n :: (0 <= n < |ParseMembers(fetch, scope, m, 0).value| &&
      |ParseMembers(fetch, scope, m, 0).value[n].values| == |ValueList(m[i].1)|)
  {
    var found := ParseMembers(fetch, scope, m, 0).value;
    FoundEntries(fetch, scope, m);
    var ss := Gather(MemberParses(fetch, scope, m, 0)).value;
    MemberEntries(fetch, scope, m, i);
    var e := ss[i][0];
    InConcat(ss, e);
    var n :| 0 <= n < |found| && found[n] == e;
  }

  // ----- Context processing (decoder.go:208-274) -----

  /** decoder.go:218-225, 268-274: a string `@context` is replaced by what
      the fetch function returns, whatever the enclosing scope, and is an
      error with no fetch function; null, booleans and numbers are
      malformed. */
  lemma ParseContextKinds(fetch: Option<FetchFunc>, ctx: Option<Context>, v: Json)
    ensures v.Str? && fetch.Some? ==> ParseContext(fetch, ctx, v) == fetch.value(v.s)
    ensures v.Str? && fetch.None? ==> ParseContext(fetch, ctx, v) == Err(RemoteContextsDisabled)
    ensures (v.Null? || v.Bool? || v.Num?) ==> ParseContext(fetch, ctx, v) == Err(MalformedContext)
    ensures v.Obj? ==> (ParseContext(fetch, ctx, v) ==
      match ParseContextMap(fetch, ctx, v.members) case Ok(c) => Ok(Some(c)) case Err(e) => Err(e))
  {
  }

  /** decoder.go:211-217: an array of contexts is applied left to right:
      the scope after `xs + [x]` is the scope after `xs` with `x` applied. */
  lemma {:induction false} ParseContextArrayFold(fetch: Option<FetchFunc>, ctx: Option<Context>, xs: seq<Json>, x: Json)
    ensures ParseContext(fetch, ctx, Arr(xs + [x])) ==
      match ParseContext(fetch, ctx, Arr(xs))
      case Ok(c) => ParseContext(fetch, c, x)
      case Err(e) => Err(e)
  {
    FoldFrom(fetch, ctx, xs, x, 0);
  }

  lemma {:induction false} FoldFrom(fetch: Option<FetchFunc>, ctx: Option<Context>, xs: seq<Json>, x: Json, j: nat)
    requires j <= |xs|
    ensures ParseContextArray(fetch, ctx, xs + [x], j) ==
      match ParseContextArray(fetch, ctx, xs, j)
      case Ok(c) => ParseContext(fetch, c, x)
      case Err(e) => Err(e)
    decreases |xs| - j
  {
    var ys := xs + [x];
    if j == |xs| {
      assert ys[j] == x;
      var r := ParseContext(fetch, ctx, x);
      if r.Ok? {
        assert ParseContextArray(fetch, r.value, ys, j + 1) == Ok(r.value);
      }
    } else {
      assert ys[j] == xs[j];
      var next := ParseContext(fetch, ctx, xs[j]);
      if next.Ok? {
        FoldFrom(fetch, next.value, xs, x, j + 1);
      }
    }
  }

  /** decoder.go:241-263 over the members i..: with distinct keys, each
      member that is not a keyword sets its term to its parsed definition,
      and every other term is left as it was. The parse succeeds exactly
      when every such definition does. */
  lemma ParseTermsSpec(fetch: Option<FetchFunc>, m: seq<(string, Json)>, i: nat,
                       terms: seq<(string, Option<Resource>)>)
    requires Distinct(m)
    ensures var r := ParseTerms(fetch, m, i, terms);
      && (r.Ok? <==> forall p :: i <= p < |m| && !IsKeyword(m[p].0) ==> TermDefinition(fetch, m[p].1).Ok?)
      && (r.Ok? ==> forall p :: i <= p < |m| && !IsKeyword(m[p].0) ==>
            TermDefinition(fetch, m[p].1).Ok? && Find(r.value, m[p].0) == Some(TermDefinition(fetch, m[p].1).value))
      && (r.Ok? ==> forall k :: (forall p :: i <= p < |m| ==> m[p].0 != k || IsKeyword(k)) ==>
            Find(r.value, k) == Find(terms, k))
  {
    ParseTermsOk(fetch, m, i, terms);
    ParseTermsKeeps(fetch, m, i, terms);
    var r := ParseTerms(fetch, m, i, terms);
    if r.Ok? {
      forall p | i <= p < |m| && !IsKeyword(m[p].0)
        ensures Find(r.value, m[p].0) == Some(TermDefinition(fetch, m[p].1).value)
      {
        ParseTermsFinds(fetch, m, i, terms, p);
      }
    }
  }

  /** The terms parse exactly when every non-keyword member's definition does. */
  lemma ParseTermsOk(fetch: Option<FetchFunc>, m: seq<(string, Json)>, i: nat,
                     terms: seq<(string, Option<Resource>)>)
    ensures ParseTerms(fetch, m, i, terms).Ok? <==>
      forall p :: i <= p < |m| && !IsKeyword(m[p].0) ==> TermDefinition(fetch, m[p].1).Ok?
  {
    if ParseTerms(fetch, m, i, terms).Ok? {
      forall p | i <= p < |m| && !IsKeyword(m[p].0) ensures TermDefinition(fetch, m[p].1).Ok? {
        ParseTermsDefined(fetch, m, i, terms, p);
      }
    } else {
      ParseTermsFails(fetch, m, i, terms);
    }
  }

  /** A parse that fails has a non-keyword member whose definition fails. */
  lemma {:induction false} ParseTermsFails(fetch: Option<FetchFunc>, m: seq<(string, Json)>, i: nat,
                                           terms: seq<(string, Option<Resource>)>)
    requires ParseTerms(fetch, m, i, terms).Err?
    ensures exists p :: i <= p < |m| && !IsKeyword(m[p].0) && TermDefinition(fetch, m[p].1).Err?
    decreases |m| - i
  {
    if IsKeyword(m[i].0) {
      ParseTermsFails(fetch, m, i + 1, terms);
    } else if TermDefinition(fetch, m[i].1).Ok? {
      ParseTermsFails(fetch, m, i + 1, Put(terms, m[i].0, TermDefinition(fetch, m[i].1).value));
    }
  }

  /** A parse that succeeds has parsed the definition of every non-keyword
      member p from i on. */
  lemma {:induction false} ParseTermsDefined(fetch: Option<FetchFunc>, m: seq<(string, Json)>, i: nat,
                                             terms: seq<(string, Option<Resource>)>, p: nat)
    requires i <= p < |m| && !IsKeyword(m[p].0)
    requires ParseTerms(fetch, m, i, terms).Ok?
    ensures TermDefinition(fetch, m[p].1).Ok?
    decreases |m| - i
  {
    if p != i {
      if IsKeyword(m[i].0) {
        ParseTermsDefined(fetch, m, i + 1, terms, p);
      } else {
        ParseTermsDefined(fetch, m, i + 1, Put(terms, m[i].0, TermDefinition(fetch, m[i].1).value), p);
      }
    }
  }

  /** Names no member from i on defines keep their old definitions. */
  lemma {:induction false} ParseTermsKeeps(fetch: Option<FetchFunc>, m: seq<(string, Json)>, i: nat,
                                           terms: seq<(string, Option<Resource>)>)
    ensures var r := ParseTerms(fetch, m, i, terms);
      r.Ok? ==> forall k :: (forall p :: i <= p < |m| ==> m[p].0 != k || IsKeyword(k)) ==>
        Find(r.value, k) == Find(terms, k)
    decreases |m| - i
  {
    if i < |m| {
      if IsKeyword(m[i].0) {
        ParseTermsKeeps(fetch, m, i + 1, terms);
      } else if TermDefinition(fetch, m[i].1).Ok? {
        ParseTermsKeeps(fetch, m, i + 1, Put(terms, m[i].0, TermDefinition(fetch, m[i].1).value));
      }
    }
  }

  /** With distinct keys, the name of a non-keyword member p from i on maps to
      p's definition. */
  lemma {:induction false} ParseTermsFinds(fetch: Option<FetchFunc>, m: seq<(string, Json)>, i: nat,
                                           terms: seq<(string, Option<Resource>)>, p: nat)
    requires Distinct(m) && i <= p < |m| && !IsKeyword(m[p].0)
    requires ParseTerms(fetch, m, i, terms).Ok?
    ensures TermDefinition(fetch, m[p].1).Ok?
    ensures Find(ParseTerms(fetch, m, i, terms).value, m[p].0) == Some(TermDefinition(fetch, m[p].1).value)
    decreases |m| - i
  {
    if IsKeyword(m[i].0) {
      ParseTermsFinds(fetch, m, i + 1, terms, p);
    } else {
      var next := Put(terms, m[i].0, TermDefinition(fetch, m[i].1).value);
      if p == i {
        ParseTermsKeeps(fetch, m, i + 1, next);
        assert forall p' :: i + 1 <= p' < |m| ==> m[p'].0 != m[i].0;
      } else {
        ParseTermsFinds(fetch, m, i + 1, next, p);
      }
    }
  }

  /** decoder.go:228-240: a context object starts a new scope, never one
      loaded from a URL, whose `@lang`, `@base` and `@vocab` are the object's
      when they are strings and the enclosing scope's otherwise. */
  lemma ParseContextMapDefaults(fetch: Option<FetchFunc>, ctx: Option<Context>, m: seq<(string, Json)>)
    requires ParseContextMap(fetch, ctx, m).Ok?
    ensures var c := ParseContextMap(fetch, ctx, m).value;
      var outer := if ctx.Some? then ctx.value else Empty;
      && c.url == ""
      && c.lang == (if Find(m, "@lang").Some? && Find(m, "@lang").value.Str? then Find(m, "@lang").value.s else outer.lang)
      && c.base == (if Find(m, "@base").Some? && Find(m, "@base").value.Str? then Find(m, "@base").value.s else outer.base)
      && c.vocab == (if Find(m, "@vocab").Some? && Find(m, "@vocab").value.Str? then Find(m, "@vocab").value.s else outer.vocab)
  {
  }

  /** decoder.go:241-263: the term loop keeps the names distinct and adds
      no name starting with '@'. */
  lemma {:induction false} ParseTermsNames(fetch: Option<FetchFunc>, m: seq<(string, Json)>, i: nat,
                                           terms: seq<(string, Option<Resource>)>)
    requires Distinct(terms)
    requires ParseTerms(fetch, m, i, terms).Ok?
    ensures var r := ParseTerms(fetch, m, i, terms).value;
      && Distinct(r)
      && forall k :: k in Keys(r) && IsKeyword(k) ==> k in Keys(terms)
    decreases |m| - i
  {
    if i < |m| {
      if IsKeyword(m[i].0) {
        ParseTermsNames(fetch, m, i + 1, terms);
      } else {
        var term := TermDefinition(fetch, m[i].1).value;
        var next := Put(terms, m[i].0, term);
        PutDistinct(terms, m[i].0, term);
        ParseTermsNames(fetch, m, i + 1, next);
        forall k | k in Keys(next) && IsKeyword(k) ensures k in Keys(terms) {
          assert Find(next, k) == Find(terms, k);
        }
      }
    }
  }

  /** decoder.go:228-266: a parsed context object has distinct term names,
      and a name starting with '@' is only ever inherited from the
      enclosing scope: the object itself never defines one (decoder.go:242). */
  lemma ParseContextMapNames(fetch: Option<FetchFunc>, ctx: Option<Context>, m: seq<(string, Json)>)
    requires ParseContextMap(fetch, ctx, m).Ok?
    ensures var c := ParseContextMap(fetch, ctx, m).value;
      && Distinct(c.terms)
      && forall k :: k in Keys(c.terms) && IsKeyword(k) ==> ctx.Some? && k in Keys(ctx.value.terms)
  {
    var child := NewChild(ctx, None);
    NewChildDistinct(ctx, None);
    ParseTermsNames(fetch, m, 0, child.terms);
  }

  /** decoder.go:241-263 with context.go:15-40: in a context object with
      distinct keys, every name the object defines maps to its parsed
      definition (a node, a node with just an IRI for a string, nil for
      null), and every other name keeps the enclosing scope's definition. */
  lemma ParseContextMapTerms(fetch: Option<FetchFunc>, ctx: Option<Context>, m: seq<(string, Json)>, k: string)
    requires Distinct(m)
    requires ParseContextMap(fetch, ctx, m).Ok?
    ensures var c := ParseContextMap(fetch, ctx, m).value;
      && (forall p :: 0 <= p < |m| && !IsKeyword(m[p].0) ==>
            TermDefinition(fetch, m[p].1).Ok? && Find(c.terms, m[p].0) == Some(TermDefinition(fetch, m[p].1).value))
      && ((forall p :: 0 <= p < |m| ==> m[p].0 != k) ==>
            Find(c.terms, k) == if ctx.Some? then Find(ctx.value.terms, k) else None)
  {
    var child := NewChild(ctx, None);
    ParseTermsSpec(fetch, m, 0, child.terms);
    assert Keys(Empty.terms) == [];
  }

  /** decoder.go:246-261: a string defines a term with that IRI, null
      defines a nil term, and a boolean, a number or an array is malformed. */
  lemma TermDefinitionKinds(fetch: Option<FetchFunc>, v: Json)
    ensures v.Str? ==> TermDefinition(fetch, v) == Ok(Some(Resource(v.s, Unallocated)))
    ensures v.Null? ==> TermDefinition(fetch, v) == Ok(None)
    ensures (v.Bool? || v.Num? || v.Arr?) ==> TermDefinition(fetch, v) == Err(MalformedContextValue)
  {
  }

  /** decoder.go:211-217: in an array of contexts a later definition
      overrides an earlier one: a term the last object defines has that
      definition, whatever came before. */
  lemma LaterDefinitionWins(fetch: Option<FetchFunc>, ctx: Option<Context>, xs: seq<Json>,
                            cm: seq<(string, Json)>, p: nat)
    requires Distinct(cm) && p < |cm| && !IsKeyword(cm[p].0)
    requires ParseContext(fetch, ctx, Arr(xs + [Obj(cm)])).Ok?
    ensures var r := ParseContext(fetch, ctx, Arr(xs + [Obj(cm)])).value;
      && r.Some?
      && TermDefinition(fetch, cm[p].1).Ok?
      && Find(r.value.terms, cm[p].0) == Some(TermDefinition(fetch, cm[p].1).value)
  {
    ParseContextArrayFold(fetch, ctx, xs, Obj(cm));
    var before := ParseContext(fetch, ctx, Arr(xs)).value;
    ParseContextKinds(fetch, before, Obj(cm));
    ParseContextMapTerms(fetch, before, cm, cm[p].0);
  }
}
