/** Context scopes and IRI expansion (context.go). */
module Contexts {
  import opened Results
  import opened Assoc
  import opened Node

  /** A context scope. `terms` maps a short name to its definition, or to
      nil when the context set the name to null. `url` is where the scope was
      loaded from; the encoder emits it instead of the scope's contents. */
  datatype Context = Context(
    url: string,
    lang: string,
    base: string,
    vocab: string,
    terms: seq<(string, Option<Resource>)>)

  /** `new(Context)`: every field empty. */
  const Empty: Context := Context("", "", "", "", [])

  /** context.go:33-37: add each parent term the child does not define yet. */
  function Inherit(terms: seq<(string, Option<Resource>)>, parent: seq<(string, Option<Resource>)>)
    : (r: seq<(string, Option<Resource>)>)
    ensures forall k :: Find(r, k) == if k in Keys(terms) then Find(terms, k) else Find(parent, k)
    decreases |parent|
  {
    if |parent| == 0 then terms
    else
      var k := parent[0].0;
      var next := if k in Keys(terms) then terms else Put(terms, k, parent[0].1);
      var r := Inherit(next, parent[1..]);
      InheritStep(terms, parent, next, r);
      r
  }

  lemma InheritStep(terms: seq<(string, Option<Resource>)>, parent: seq<(string, Option<Resource>)>,
                    next: seq<(string, Option<Resource>)>, r: seq<(string, Option<Resource>)>)
    requires |parent| > 0
    requires next == if parent[0].0 in Keys(terms) then terms else Put(terms, parent[0].0, parent[0].1)
    requires forall k :: Find(r, k) == if k in Keys(next) then Find(next, k) else Find(parent[1..], k)
    ensures forall k :: Find(r, k) == if k in Keys(terms) then Find(terms, k) else Find(parent, k)
  {
    assert parent == [parent[0]] + parent[1..];
    forall k ensures Find(r, k) == if k in Keys(terms) then Find(terms, k) else Find(parent, k) {
      assert Find(parent, k) == if parent[0].0 == k then Some(parent[0].1) else Find(parent[1..], k);
      if k in Keys(terms) {
        assert Find(next, k) == Find(terms, k);
      } else if k == parent[0].0 {
        assert Find(next, k) == Some(parent[0].1);
      } else {
        assert Find(next, k) == Find(terms, k);
      }
    }
  }

  /** Inheriting assigns only names the child lacks, so a child with
      distinct term names keeps them distinct. */
  lemma {:induction false} InheritDistinct(terms: seq<(string, Option<Resource>)>, parent: seq<(string, Option<Resource>)>)
    requires Distinct(terms)
    ensures Distinct(Inherit(terms, parent))
    decreases |parent|
  {
    if |parent| > 0 {
      var k := parent[0].0;
      var next := if k in Keys(terms) then terms else Put(terms, k, parent[0].1);
      PutDistinct(terms, k, parent[0].1);
      InheritDistinct(next, parent[1..]);
    }
  }

  /** context.go:15-40: the child scope (a fresh empty one when `child` is
      nil) with the parent's defaults filled in where the child's are empty
      and the parent's terms added where the child has none. */
  function NewChild(parent: Option<Context>, child: Option<Context>): (c: Context)
    ensures var own := if child.Some? then child.value else Empty;
      && c.url == own.url
      && (forall k :: k in Keys(own.terms) ==> Find(c.terms, k) == Find(own.terms, k))
      && (parent.None? ==> c == own)
      && (parent.Some? ==>
            && c.lang == (if own.lang == "" then parent.value.lang else own.lang)
            && c.base == (if own.base == "" then parent.value.base else own.base)
            && c.vocab == (if own.vocab == "" then parent.value.vocab else own.vocab)
            && forall k :: k !in Keys(own.terms) ==> Find(c.terms, k) == Find(parent.value.terms, k))
  {
    var own := if child.Some? then child.value else Empty;
    match parent
    case None => own
    case Some(p) =>
      Context(
        own.url,
        if own.lang == "" then p.lang else own.lang,
        if own.base == "" then p.base else own.base,
        if own.vocab == "" then p.vocab else own.vocab,
        Inherit(own.terms, p.terms))
  }

  /** A child scope built from terms with distinct names has distinct
      term names, whatever the parent's, and each of them is the child's
      own or the parent's. */
  lemma NewChildDistinct(parent: Option<Context>, child: Option<Context>)
    requires child.Some? ==> Distinct(child.value.terms)
    ensures Distinct(NewChild(parent, child).terms)
    ensures var own := if child.Some? then child.value.terms else [];
      forall k :: k in Keys(NewChild(parent, child).terms) ==>
        k in Keys(own) || (parent.Some? && k in Keys(parent.value.terms))
  {
    var own := if child.Some? then child.value else Empty;
    if parent.Some? {
      InheritDistinct(own.terms, parent.value.terms);
    }
  }

  /** The index of the first ':' in `u`, Go's `strings.IndexRune(u, ':')`. */
  function ColonIndex(u: string): (r: Option<nat>)
    ensures r.Some? ==> r.value < |u| && u[r.value] == ':' && ':' !in u[..r.value]
    ensures r.None? <==> ':' !in u
  {
    if |u| == 0 then None
    else if u[0] == ':' then Some(0)
    else
      match ColonIndex(u[1..])
      case None => None
      case Some(i) =>
        assert u[..i + 1] == [u[0]] + u[1..][..i];
        Some(i + 1)
  }

  /** context.go:82-98. A nil scope leaves `u` alone. A name without a colon
      is appended to the vocabulary, without consulting the terms. Otherwise
      the name is split at its first colon: a prefix bound to a (non-nil)
      term is replaced by the term's IRI, and any other name is taken to be
      absolute and left alone. */
  function Expand(ctx: Option<Context>, u: string): (r: string)
    ensures ctx.None? ==> r == u
    ensures ctx.Some? && ':' !in u ==> r == ctx.value.vocab + u
  {
    match ctx
    case None => u
    case Some(c) =>
      match ColonIndex(u)
      case None => c.vocab + u
      case Some(i) =>
        var found: Option<Option<Resource>> := Find(c.terms, u[..i]);
        if found.Some? && found.value.Some? then found.value.value.id + u[i + 1..] else u
  }

  /** The first colon of `p + ":" + s` is the one after `p` when `p` has none. */
  lemma {:induction false} ColonAfterPrefix(p: string, s: string)
    requires ':' !in p
    ensures ColonIndex(p + ":" + s) == Some(|p|)
  {
    var u := p + ":" + s;
    if |p| > 0 {
      assert p[0] in p;
      assert u[1..] == p[1..] + ":" + s;
      ColonAfterPrefix(p[1..], s);
    }
  }

  /** A prefixed name `p:s` expands to the IRI of the term `p` followed by
      `s` when `p` is bound to a term (even one with an empty IRI), and is
      returned unchanged when `p` is unbound or bound to null. */
  lemma ExpandPrefixed(c: Context, p: string, s: string)
    requires ':' !in p
    ensures Expand(Some(c), p + ":" + s) ==
      var found: Option<Option<Resource>> := Find(c.terms, p);
      if found.Some? && found.value.Some? then found.value.value.id + s else p + ":" + s
  {
    ColonAfterPrefix(p, s);
    var u := p + ":" + s;
    assert u[..|p|] == p && u[|p| + 1..] == s;
  }

  /** Setting a prefix to null in a child scope hides the parent's
      definition: the prefixed name is then returned unchanged. */
  lemma NullTermSuppressesPrefix(parent: Option<Context>, child: Context, p: string, s: string)
    requires ':' !in p
    requires Find(child.terms, p) == Some(None)
    ensures Expand(Some(NewChild(parent, Some(child))), p + ":" + s) == p + ":" + s
  {
    var c := NewChild(parent, Some(child));
    assert p in Keys(child.terms);
    assert Find(c.terms, p) == Some(None);
    ExpandPrefixed(c, p, s);
  }

  /** The FOAF vocabulary. */
  const Foaf := "http://xmlns.com/foaf/0.1/"

  /** The FOAF prefix: `foaf:Person` expands to the FOAF Person class. */
  lemma FoafPerson()
    ensures Expand(Some(Context("", "", "", "", [("foaf", Some(Resource(Foaf, Unallocated)))])), "foaf:Person") ==
      Foaf + "Person"
  {
    var c := Context("", "", "", "", [("foaf", Some(Resource(Foaf, Unallocated)))]);
    var p, s := "foaf", "Person";
    assert ':' !in p by {
      assert p == ['f', 'o', 'a', 'f'];
    }
    assert p + ":" + s == "foaf:Person";
    assert Find(c.terms, p) == Some(Some(Resource(Foaf, Unallocated)));
    ExpandPrefixed(c, p, s);
  }
}
