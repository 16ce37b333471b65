/** The field-binding rules of resource.go:83-132, over an explicit list of
    field descriptors instead of Go reflection. */
module Binder {
  import opened Results
  import opened RawJson
  import opened Node

  /** A struct field: its Go name, its `jsonld` tag ("" when untagged), and
      whether its type is `jsonld.Type`. */
  datatype Field = Field(name: string, tag: string, typeWitness: bool)

  /** The destination: a `Resource` itself (resource.go:88-92), or a struct
      with the given fields in declaration order. */
  datatype Target = WholeResource | Struct(fields: seq<Field>)

  /** What one field receives. `A` is what `unmarshalValue` produces. */
  datatype Slot<A> =
    | TypeSlot(uri: string)     // `Type{typeURI}`
    | IdSlot(id: string)        // the resource's IRI
    | ValueSlot(value: A)       // the result of `unmarshalValue`
    | Skipped                   // left at its zero value

  /** What the destination receives. */
  datatype Bound<A> = Copied(resource: Resource) | Filled(slots: seq<Slot<A>>)

  /** resource.go:98-101: the property a field reads, its tag when it has
      one and its name otherwise. */
  function Key(f: Field): (k: string)
    ensures f.tag != "" ==> k == f.tag
    ensures f.tag == "" ==> k == f.name
  {
    if f.tag != "" then f.tag else f.name
  }

  /** resource.go:103: the field that receives the node's type. */
  predicate IsTypeField(f: Field)
  {
    f.name == "JSONLDType" && f.typeWitness
  }

  /** resource.go:94-129, one field. `typeOf` is `Props.Type` and `assign`
      is `unmarshalValue`; neither is part of this model. */
  function BindField<A>(r: Resource, f: Field, typeOf: Props -> string, assign: (Value, Field) -> Result<A>)
    : (res: Result<Slot<A>>)
    ensures IsTypeField(f) ==>
      (res.Err? <==> f.tag != "" && f.tag != typeOf(r.props))
    ensures IsTypeField(f) && res.Err? ==> res.error == MismatchedType(f.tag)
    ensures IsTypeField(f) && res.Ok? ==> res.value == TypeSlot(typeOf(r.props))
    ensures !IsTypeField(f) && Key(f) == "@id" ==> res == Ok(IdSlot(r.id))
    ensures !IsTypeField(f) && Key(f) != "@id" && |ValuesOf(r.props, Key(f))| == 0 ==>
      res == (match assign(Raw(Str("")), f) case Ok(a) => Ok(ValueSlot(a)) case Err(e) => Err(e))
    ensures !IsTypeField(f) && Key(f) != "@id" && |ValuesOf(r.props, Key(f))| > 0 ==>
      var first := ValuesOf(r.props, Key(f))[0];
      res == if first == Raw(Null) then Ok(Skipped)
             else match assign(first, f) case Ok(a) => Ok(ValueSlot(a)) case Err(e) => Err(e)
  {
    if IsTypeField(f) then
      var typeUri := typeOf(r.props);
      if f.tag != "" && f.tag != typeUri then Err(MismatchedType(f.tag))
      else Ok(TypeSlot(typeUri))
    else if Key(f) == "@id" then Ok(IdSlot(r.id))
    else
      var fv := Get(r.props, Key(f));
      if fv == Raw(Null) then Ok(Skipped)
      else
        var a :- assign(fv, f);
        Ok(ValueSlot(a))
  }

  /** resource.go:94-131: the fields in declaration order; the first error
      aborts. Succeeds exactly when every field binds, with each field's slot
      in its position, and otherwise reports the first field's error. */
  method BindStruct<A>(r: Resource, fields: seq<Field>, typeOf: Props -> string, assign: (Value, Field) -> Result<A>)
    returns (res: Result<seq<Slot<A>>>)
    ensures res.Ok? <==> forall i :: 0 <= i < |fields| ==> BindField(r, fields[i], typeOf, assign).Ok?
    ensures res.Ok? ==> |res.value| == |fields|
    ensures res.Ok? ==> forall i :: 0 <= i < |fields| ==> res.value[i] == BindField(r, fields[i], typeOf, assign).value
    ensures res.Err? ==> exists i :: (0 <= i < |fields| &&
      BindField(r, fields[i], typeOf, assign) == Err(res.error) &&
      forall j :: 0 <= j < i ==> BindField(r, fields[j], typeOf, assign).Ok?)
  {
    var slots: seq<Slot<A>> := [];
    var i := 0;
    while i < |fields|
      invariant 0 <= i <= |fields|
      invariant |slots| == i
      invariant forall j :: 0 <= j < i ==> BindField(r, fields[j], typeOf, assign).Ok?
      invariant forall j :: 0 <= j < i ==> slots[j] == BindField(r, fields[j], typeOf, assign).value
    {
      var b := BindField(r, fields[i], typeOf, assign);
      if b.Err? {
        return Err(b.error);
      }
      slots := slots + [b.value];
      i := i + 1;
    }
    return Ok(slots);
  }

  /** resource.go:83-132: a `Resource` destination receives a copy of the
      node; a struct receives its fields. */
  method Bind<A>(r: Resource, target: Target, typeOf: Props -> string, assign: (Value, Field) -> Result<A>)
    returns (res: Result<Bound<A>>)
    ensures target.WholeResource? ==> res == Ok(Copied(r))
    ensures target.Struct? ==>
      (res.Ok? <==> forall i :: 0 <= i < |target.fields| ==> BindField(r, target.fields[i], typeOf, assign).Ok?)
    ensures target.Struct? && res.Ok? ==> res.value.Filled? && |res.value.slots| == |target.fields|
    ensures target.Struct? && res.Ok? ==> forall i :: 0 <= i < |target.fields| ==>
      res.value.slots[i] == BindField(r, target.fields[i], typeOf, assign).value
  {
    if target.WholeResource? {
      return Ok(Copied(r));
    }
    var slots := BindStruct(r, target.fields, typeOf, assign);
    if slots.Err? {
      return Err(slots.error);
    }
    return Ok(Filled(slots.value));
  }

  /** A tagged `JSONLDType` field checks the node's type: it binds exactly
      when the tag names that type. An untagged one always binds. */
  lemma TypeFieldChecks<A>(r: Resource, tag: string, typeOf: Props -> string, assign: (Value, Field) -> Result<A>)
    ensures BindField(r, Field("JSONLDType", tag, true), typeOf, assign).Ok? <==> tag == "" || tag == typeOf(r.props)
  {
  }

  /** A field whose property is missing is not skipped: `Get` yields the
      empty string, which is handed to `unmarshalValue` (props.go:7-9). */
  lemma MissingIsNotSkipped<A>(r: Resource, f: Field, typeOf: Props -> string, assign: (Value, Field) -> Result<A>)
    requires !IsTypeField(f) && Key(f) != "@id"
    requires Lookup(r.props, Key(f)).None?
    requires assign(Raw(Str("")), f).Ok?
    ensures BindField(r, f, typeOf, assign) == Ok(ValueSlot(assign(Raw(Str("")), f).value))
  {
  }

  /** Appending to a property that already has a value does not change what
      its field receives: only the first value is read. */
  lemma BindReadsFirstValue<A>(r: Resource, f: Field, x: Value, typeOf: Props -> string, assign: (Value, Field) -> Result<A>)
    requires !IsTypeField(f) && Key(f) != "@id"
    requires |ValuesOf(r.props, Key(f))| > 0
    ensures BindField(r.(props := Append(r.props, Key(f), x)), f, typeOf, assign) == BindField(r, f, typeOf, assign)
  {
    assert ValuesOf(Append(r.props, Key(f), x), Key(f))[0] == ValuesOf(r.props, Key(f))[0];
  }
}
