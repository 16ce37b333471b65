# go-jsonld, value level, in Dafny

A model of the value-level JSON-LD machinery of the Go package
`github.com/emersion/go-jsonld`:

- **Context scopes** (`Contexts`): building a child scope and expanding
  IRIs (`newChild`, `expand`).
- **Property maps** (`Node`): `Props.Get`, plus the append-and-allocate
  steps the decoders use to fill a map.
- **Decoding** (`Decoder`, with properties in `DecoderProps`):
  - type-hint dispatch in `parse`
  - key resolution and value accumulation in `parseResource`
  - context processing in `parseContext`, `parseContextMap` and
    `fetchContext`, with the fetch function passed in as a parameter
- **Encoding** (`Encoding`): `format`, `formatResource`, `formatContext`,
  and the `@context` wrapping in `Encode`. The compaction function
  `reduce` and the `hasType("@id")` test are parameters. Each of these
  takes a list mode: `AsWritten` is encoder.go as it stands, and
  `Formatted` is the corrected handling of multi-valued properties (see
  "## Findings").
- **The round trip** (`RoundTrip`): decoding what the corrected encoder
  emits without a context gives back every canonical value, that is every
  raw scalar and every node built from canonical values (see
  `RoundTrip.CanonicalValue`). Other decoder outputs do not read back as
  themselves, in Go as in the model (see "## Left out").
- **The older decoder** (`Legacy`): `parseResource` in resource.go, where a
  context must be an object and the property map is always allocated.
- **The field binder** (`Binder`): the rules of `unmarshalResource`, over
  a list of field descriptors (name, tag, whether the field has type
  `jsonld.Type`) instead of reflection.

Raw JSON is the datatype `RawJson.Json`. An object is a sequence of members.
Their order stands in for Go's map iteration order, and the properties
about objects hold whatever that order is. A Go map cannot hold a key
twice, so objects with a repeated key are outside the package's domain;
the model accepts them, reading the first `@id`, `@context` or `@type` but
parsing every repeated property, and promises nothing about them. A decoded value is `Node.Value`,
one of:

- a raw JSON value, as `parse` passes through strings, booleans, numbers,
  null and arrays (an array held inside a property's array, decoder.go:135-141)
- an `int64` from an `xsd:integer` coercion
- a node (`*Resource`)

A property map is either `Unallocated` (a nil Go map) or an entry list with
one entry per key. Errors are the `Results.Error` kinds, one kind per error
message of the modelled functions, plus `FetchFailed`, a kind left to the
fetch function. Some kinds are reported from two places:

- `MalformedContext`: decoder.go:223 and resource.go:27
- `MalformedContextValue`: decoder.go:259 and context.go:73
- `MismatchedType`: decoder.go:309 and resource.go:107

The reflection errors (decoder.go:71, decoder.go:286, jsonld.go:51) have no
kind; see "## Left out".

Where the package's prose description and its code differ, the model
follows the code:

- A name without a colon expands to `Vocab + name` even when it is a term
  (context.go:95-97).
- A prefix bound to a term with an empty IRI still prefixes
  (context.go:90-91).
- Numeric strings are rejected for `xsd:integer` (decoder.go:109-115).
- A string `@context` is replaced by the fetched scope rather than
  inheriting from the enclosing one (decoder.go:268-272).
- `Decoder.Decode` parses with a nil scope (decoder.go:64). The decoder's
  `Context` field plays no part in parsing; it is read only by `unmarshal`
  (decoder.go:313), which is not part of this model.
- resource.go and context.go call a `parseValue` that no file defines. It
  is modelled as decoder.go's `parse`, with the same fetch function.

## Model

| member | source | states |
|---|---|---|
| Contexts.NewChild | context.go:15-40 | The child keeps its own URL and every term it defines. With a parent, lang, base and vocab come from the parent exactly when the child's own value is empty, and every parent term the child lacks is added with the parent's definition. With no parent the child is returned as it is, or an empty scope if there is none. |
| Contexts.NewChildDistinct | context.go:15-40 | A child made from terms with distinct names has distinct term names, each of them the child's own or the parent's. |
| Contexts.Inherit | context.go:33-37 | A name the child defines keeps the child's definition. Any other name has the parent's definition, or none. |
| Contexts.ColonIndex | context.go:87 | The index returned holds a ':' and none comes before it. There is no index exactly when the name has no ':'. |
| Contexts.Expand | context.go:82-98 | With no scope a name is unchanged. A name without a colon becomes vocab + name, whether or not it is a term. |
| Contexts.ExpandPrefixed | context.go:87-94 | `p:s`, with `p` colon-free, becomes the bound term's IRI followed by `s` when `p` is bound to a non-nil term, even one with an empty IRI. When `p` is unbound or bound to null, the name is unchanged. |
| Contexts.NullTermSuppressesPrefix | context.go:87-94 | A child that sets a prefix to null hides the parent's definition, so the prefixed name stays as written. |
| Contexts.FoafPerson | jsonld_test.go:192-204 | With `foaf` bound to the FOAF namespace, `foaf:Person` expands to the FOAF Person class IRI. |
| Node.Get | props.go:5-11 | Returns the first value stored under the key when its list is non-empty. Returns the string "" (never nil) when the key is missing or its list is empty. |
| Node.GetAfterAppend | props.go:5-11 | What Get returns depends only on the key's own list. Appending under another key, or to a list that already has a value, leaves it unchanged. Appending to a missing or empty list makes it the appended value. |
| Node.Append | decoder.go:198-201 | Leaves the map allocated, with the value at the end of the key's list and every other key's list unchanged. |
| Node.AppendAll | decoder.go:193-202 | Adds the values at the end of the key's list, in order. The map is allocated once at least one value was added, and untouched when there are none. |
| Node.CollectValues | decoder.go:193-202 | After all entries are appended, a key's list is the values of every entry with that key, in entry order. |
| Node.CollectUnallocated | decoder.go:198-200 | The map ends up allocated exactly when it started allocated or some entry had a value. |
| Node.CollectDistinct | decoder.go:193-202 | Appending every entry into a map with distinct keys keeps the keys distinct, however often the entries repeat a key. |
| Node.CollectEntries | resource.go:15 | Collecting into an allocated map gives the same entries as collecting into a nil one. |
| Decoder.Parse | decoder.go:77-143 | `parse`, specified by the DecoderProps lemmas below: ParseIdHint, ParseScalarHints, ParseAnyUri and ParseUnhinted cover its hint dispatch, and TypedLiteral the hint taken from an object's own `@type`. |
| Decoder.ParseResource | decoder.go:145-206 | `parseResource`, specified by ParseResourceOutcome (scope, errors and IRI), MemberEntries, ParseResourceValues and ParseResourceAllocated (properties). |
| Decoder.ParseContext | decoder.go:208-226 | `parseContext`, specified by ParseContextKinds, ParseContextArrayFold and LaterDefinitionWins. |
| Decoder.ParseContextMap | decoder.go:228-266 | `parseContextMap`, specified by ParseContextMapDefaults, ParseContextMapTerms and ParseTermsSpec. |
| Decoder.Decode | decoder.go:58-67 | `Decode` after its JSON reading: the document parsed with no scope and no hint. RoundTrip.DecodeEncode and RoundTrip.AsWrittenLosesNodes state what it makes of the encoder's output. |
| Decoder.FetchContext | decoder.go:268-274 | With no fetch function the result is the remote-contexts-disabled error. Otherwise it is the fetch function's result, ignoring the enclosing scope. |
| Decoder.ValueList | decoder.go:188-191 | An array is its items. Any other value is a one-element list. |
| Decoder.EffectiveHint | decoder.go:78-92 | A non-empty caller hint wins, and so does any hint for a non-object. For an object with no hint, the hint is its `@type` string, the first element of an `@type` array if that is a string, and "" otherwise. |
| Decoder.ResolveKey | decoder.go:159-186 | `@type` and the rdf:type IRI resolve to rdf:type with the anyURI hint. Other `@` keys are skipped. With no scope a key is verbatim. A null term keeps the key with no hint. A term with an IRI maps to its expanded IRI, with the term's type as hint. A term with an empty IRI, or an unknown key, maps to the expanded key. |
| DecoderProps.ParseIdHint | decoder.go:95-102 | With the `@id` hint, an object is parsed as a node. A string is a node with that IRI, unexpanded and with no properties. Anything else is the expected-ID error. |
| DecoderProps.ParseScalarHints | decoder.go:103-128 | `xsd:string` takes only strings and `xsd:boolean` only booleans. `xsd:integer` and `xsd:double` take only numbers; `xsd:integer` yields an int64. Every other value is the matching error. In each case an object's `@value` is the value examined. |
| DecoderProps.ParseAnyUri | decoder.go:129-134 | With the anyURI hint, a string is expanded in the scope and anything else is the expected-URI error. |
| DecoderProps.ParseUnhinted | decoder.go:135-141 | With no hint or an unrecognised one, an object becomes a node and any other value passes through unchanged. |
| DecoderProps.TypedLiteral | decoder.go:109-115 | A typed literal whose `@type` is xsd:integer gives the integer. The same literal with the numeric string "7" is an error. |
| DecoderProps.ParseListGathers | decoder.go:193-197 | Parsing a key's values is a left-to-right loop that stops at its first error. |
| DecoderProps.ParseListValues | decoder.go:188-197 | A key's values parse exactly when each JSON value does, giving one value per JSON value in array order. Otherwise the result is the error of the first value that fails. |
| DecoderProps.ParseMembersGathers | decoder.go:159-203 | The members are parsed one by one and their entries joined in member order. The first error aborts. |
| DecoderProps.MemberEntries | decoder.go:159-202 | A skipped key contributes nothing. Any other key contributes one entry under its resolved IRI, with one value per JSON value. |
| DecoderProps.ParseResourceOutcome | decoder.go:145-157 | An error from the object's own `@context` is the result. Otherwise the node is built exactly when its members parse. Its IRI is a string `@id` expanded in the object's scope, and "" when `@id` is missing or not a string. |
| DecoderProps.ParseResourceValues | decoder.go:159-203 | A node's list under an IRI holds the values of every member that resolves to that IRI, in array order within a member and member order across members. |
| DecoderProps.ParseResourceDistinct | decoder.go:193-202 | A decoded node's property map has one entry per IRI, even when several members resolve to the same IRI. |
| DecoderProps.ParseResourceAllocated | decoder.go:145-202 | The property map stays nil exactly when no kept member has a value. |
| DecoderProps.ParseContextKinds | decoder.go:208-226 | A string context is replaced by what the fetch function returns, or is an error without a fetch function. An object is a child scope. Null, booleans and numbers are malformed. |
| DecoderProps.ParseContextArrayFold | decoder.go:211-217 | An array of contexts is applied left to right: the scope after `xs + [x]` is the scope after `xs` with `x` applied. |
| DecoderProps.LaterDefinitionWins | decoder.go:211-219 | In an array of contexts, a term defined by the last object has that object's definition, whatever came before. |
| DecoderProps.ParseTermsSpec | decoder.go:241-263 | The terms parse exactly when every non-keyword member's definition does. Each such member's name then maps to its definition, and every other name keeps its old definition. |
| DecoderProps.ParseTermsNames | decoder.go:241-263 | The term loop keeps the names distinct and adds no name starting with `@`. |
| DecoderProps.ParseContextMapNames | decoder.go:228-266 | A parsed context object has distinct term names. A name starting with `@` can only be inherited from the enclosing scope; the object never defines one. |
| DecoderProps.ParseContextMapDefaults | decoder.go:228-240 | A context object makes a scope with no URL. Its lang, base and vocab are the object's when those are strings, and the enclosing scope's otherwise. |
| DecoderProps.ParseContextMapTerms | decoder.go:228-266 | Every name the object defines maps to its parsed definition. Every other name keeps the enclosing scope's definition, or has none. |
| DecoderProps.TermDefinitionKinds | decoder.go:246-261 | A string defines a term with that IRI and null a nil term. A boolean, a number or an array is a malformed context value. |
| Encoding.Format | encoder.go:52-59 | `format`, specified by FormatResourceMembers, FormatResourceFresh and MemberValues for nodes; any other value is emitted as it is. |
| Encoding.FormatResource | encoder.go:61-102 | `formatResource` with the corrected list handling; Encoding.FormatResourceAsWritten is the one as written. Both are specified by FormatResourceMembers, FormatResourceFresh and MemberValues, which take the list mode as a parameter. |
| Encoding.FormatResourceMembers | encoder.go:61-102 | When the emitted names are distinct, the output holds `@id`, verbatim, exactly when the IRI is non-empty. It has one member per property, each under its emitted name with that property's emitted value, and nothing else. |
| Encoding.FormatResourceFresh | encoder.go:61-99 | When the emitted names are distinct, the output has distinct keys: `@id` first if present, then the properties in entry order. |
| Encoding.MemberValues | encoder.go:70-98 | A property with one value is emitted as that value bare; otherwise it becomes an array with one element per value. Type strings are reduced. Property-less nodes under an `@id`-typed term become their IRI. Other values are formatted, except that the as-written encoder leaves the elements of a multi-valued property to encoding/json. |
| Encoding.FormatContext | encoder.go:167-199 | A nil scope gives null and a scope with a URL gives the URL string, whatever its terms. Any other scope gives an object. |
| Encoding.FormatContextMembers | encoder.go:175-197 | `@lang`, `@base` and `@vocab` are present exactly when non-empty, with those values. The object has one member per term besides them. |
| Encoding.FormatContextTerm | encoder.go:187-196 | Every term is emitted under its own name: as its IRI string when it has no properties, and as its formatted node otherwise. A term named `@lang`, `@base` or `@vocab` replaces the default of that name. |
| Encoding.FormatContextOther | encoder.go:175-186 | A name that no term carries is present only as `@lang`, `@base` or `@vocab`, exactly when that default is non-empty, with its value. |
| Encoding.Encode | encoder.go:29-47 | Without a context the output is the formatted value, in the given list mode. With one, an object output gains `@context` and keeps every other member. Any other output is wrapped as `{"@context": ..., "@value": ...}`. |
| RoundTrip.RoundTripValue | encoder.go:52-59 | A canonical value, formatted without a context, parses back as itself. |
| RoundTrip.RoundTripResource | encoder.go:61-102 | A canonical node, formatted without a context, parses back as the same node: same IRI, same properties and values, same allocation. |
| RoundTrip.DecodeEncode | encoder.go:29-49 | Decode inverts the corrected Encode on every canonical value, with or without a fetch function. |
| RoundTrip.IntegerReadsBackRaw | encoder.go:52-59 | An `xsd:integer` value is emitted as a plain JSON number, which decodes to a raw number rather than to the integer, in either list mode. |
| RoundTrip.AsWrittenPair | encoder.go:90-95 | As written, a property holding two IRI-only nodes is emitted as if it held two different nodes, each with an `ID` and a `Props` property. |
| RoundTrip.AsWrittenLosesNodes | encoder.go:90-95 | Encoded as written, a blank node that knows Alice and Bob decodes to a node that knows two anonymous nodes, not to itself. |
| RoundTrip.FormattedKeepsNodes | encoder.go:90-95 | Encoded with every element formatted, the same node decodes to itself. |
| Legacy.LegacyScope | resource.go:17-29 | With no `@context` the enclosing scope is kept. A context that is not an object is malformed. An object goes to `parseChild` (context.go:42-80), which is modelled by Decoder.ParseContextMap: the two are the same apart from calling `parseValue` instead of `parse`. |
| Legacy.LegacyParseResource | resource.go:14-81 | The property map is always allocated, and a non-object `@context` is an error. |
| Legacy.AgreesWithDecoder | resource.go:14-81 | When the `@context` is absent or an object, the older decoder gives the same IRI, entries and errors as decoder.go. The only difference is that the map is allocated. |
| Legacy.EmptyObjectAllocated | resource.go:15 | `{}` gives an allocated empty map here and a nil map in decoder.go. |
| Binder.Key | resource.go:98-101 | A field reads the property named by its tag, or by its name when untagged. |
| Binder.BindField | resource.go:103-128 | A `JSONLDType` field of type `Type` fails exactly when its tag is non-empty and differs from the node's type; otherwise it receives that type. A field keyed `@id` receives the IRI. Any other field receives what `unmarshalValue` makes of the first value under its key: the empty string when there is none, and nothing when that value is null. |
| Binder.BindStruct | resource.go:94-131 | Binding succeeds exactly when every field binds, each field getting its own result in declaration order. Otherwise the error is that of the first field that fails. |
| Binder.Bind | resource.go:83-132 | A `Resource` destination receives the node. A struct binds field by field as in BindStruct. |
| Binder.TypeFieldChecks | resource.go:103-110 | A type field binds exactly when it is untagged or its tag is the node's type. |
| Binder.MissingIsNotSkipped | resource.go:114-117 | A field whose property is missing is not skipped: it receives what `unmarshalValue` makes of "". |
| Binder.BindReadsFirstValue | resource.go:114 | Only the first value under a key is read, so appending more values does not change what the field receives. |

## Left out

- Floating point. JSON numbers are integers. The `float64` to `int64`
  truncation of `xsd:integer` (decoder.go:112) and `xsd:double` values are
  not modelled.
- Stream I/O and reflection:
  - `NewDecoder`, `Decoder.Decode`'s JSON reading and `unmarshal`
  - `NewEncoder`, `Encoder.Encode`'s `marshal` and JSON writing
  - resource.go's pointer allocation and field assignment
  - jsonld.go
  - the reflection errors (decoder.go:71, decoder.go:286, jsonld.go:51),
    which have no `Results.Error` kind
  These are I/O or Go reflection. `Decode` and `Encode` are modelled on
  JSON values.
- HTTP fetching of remote contexts. The fetch function is a parameter.
- `reduce`, `Props.hasType`, `Props.Type` and `unmarshalValue` are not
  part of this model. They appear as function parameters, and no behaviour
  is assumed of them.
- Go map iteration order. Objects, property maps and term tables are
  ordered sequences. Properties that depend on order speak only of the
  order within one key's list, or hold for every member order.
- Encoding/json sorts object keys when it writes them. Only the set of
  members is modelled.
- The partial results returned alongside errors (decoder.go:196,
  resource.go:24, 74, encoder.go:97, 193). Error results carry no value,
  and a struct that fails to bind is not described field by field.
- The in-place rewriting of the caller's value lists in `formatResource`
  (encoder.go:76, 85). Formatting is pure.
- The distinction between a nil and an empty `Terms` map. Term tables are
  always sequences.
- Encoding.FormatResourceIn: `formatResource` cannot actually return an
  error (`format` never fails), so it is modelled as total.
- Encoding.FormatContext: requires every term of a scope without a URL to
  be non-nil, because encoder.go:188 reads the properties of a nil term and
  would panic. A scope with a URL returns before that loop
  (encoder.go:171-173) and may hold nil terms. Encoding.Encode requires the
  same of its context.
- Encoding.FormatContextMembers: stated only for contexts whose terms have
  distinct names, none starting with `@`. Its member count does not hold
  for a hand-built context with a term named `@lang`, `@base` or `@vocab`,
  which encoder.go:187-197 assigns after the default of that name. Parsed
  contexts never define such a term (decoder.go:242,
  DecoderProps.ParseContextMapNames). Encoding.FormatContextTerm and
  Encoding.FormatContextOther cover those contexts too.
- Encoding.MemberValues: a hand-built property whose value list is nil is
  emitted as `[]`; encoding/json writes `null` for it. `Props` does not tell
  a nil list from an empty one, and decoded nodes never hold an empty list.
- Encoding.FormatResourceMembers: stated only when the emitted names are
  distinct. When `reduce` maps two properties to one name, Go keeps the one
  it happens to visit last, which depends on map iteration order.
- RoundTrip.DecodeEncode: proved for an encoder with no context whose
  `reduce` is the identity, and for canonical values only. It is not proved
  for compacting encoders. It excludes decoder outputs that do not read
  back as themselves, in Go as in the model: an `Int` from `xsd:integer`
  (emitted as a plain number, see RoundTrip.IntegerReadsBackRaw), a raw
  array held by a property (`{"k": [[1]]}` re-emits the inner array, whose
  items are then read as separate values), and a node whose first
  `rdf:type` value is a coercion IRI such as `xsd:string`, which becomes
  the node's own type hint when read back.
- RoundTrip.RoundTripValue: holds for canonical values only, for the
  reasons given for RoundTrip.DecodeEncode.
- RoundTrip.RoundTripResource: holds for canonical nodes only, for the
  reasons given for RoundTrip.DecodeEncode.

## Findings

| source | as written | input that shows it | evidently intended | confidence | as-written member | corrected member |
|---|---|---|---|---|---|---|
| encoder.go:93-94 | `e.format(values)` is applied to the whole `[]interface{}` slice, and `format` returns a non-`*Resource` unchanged, so the nodes inside a property with two or more values are never formatted. encoding/json then writes each one as its Go struct, `{"ID": ..., "Props": ...}`. | A blank node with property `foaf:knows` holding the IRI-only nodes `http://example.org/alice` and `http://example.org/bob`. It is emitted as `{"http://xmlns.com/foaf/0.1/knows": [{"ID": "http://example.org/alice", "Props": null}, ...]}`, which decodes to two anonymous nodes with properties `ID` and `Props`. | Each element is formatted like a single value, so decoding what is encoded gives back the node. | not executed | RoundTrip.AsWrittenLosesNodes | RoundTrip.DecodeEncode |
