/** The namespace and datatype IRIs of jsonld.go:12-25. */
module Vocabulary {

  const NsRdf: string := "http://www.w3.org/1999/02/22-rdf-syntax-ns#"
  const NsXsd: string := "http://www.w3.org/2001/XMLSchema#"

  /** The property under which a resource's types are stored. */
  const PropType: string := NsRdf + "type"

  const TypeString: string := NsXsd + "string"
  const TypeBoolean: string := NsXsd + "boolean"
  const TypeInteger: string := NsXsd + "integer"
  const TypeDouble: string := NsXsd + "double"
  const TypeAnyUri: string := NsXsd + "anyURI"

  /** The type hints that `parse` gives a meaning of their own; every other
      hint is treated like no hint at all. */
  predicate IsRecognisedHint(t: string)
  {
    t in {"@id", TypeString, TypeInteger, TypeBoolean, TypeDouble, TypeAnyUri}
  }

  /** The recognised hints are six different strings. */
  lemma HintsDistinct()
    ensures "@id" != TypeString && "@id" != TypeInteger && "@id" != TypeBoolean && "@id" != TypeDouble && "@id" != TypeAnyUri
    ensures TypeString != TypeInteger && TypeString != TypeBoolean && TypeString != TypeDouble && TypeString != TypeAnyUri
    ensures TypeInteger != TypeBoolean && TypeInteger != TypeDouble && TypeInteger != TypeAnyUri
    ensures TypeBoolean != TypeDouble && TypeBoolean != TypeAnyUri
    ensures TypeDouble != TypeAnyUri
  {
    var n := |NsXsd|;
    assert "@id"[0] == '@' && NsXsd[0] == 'h';
    assert TypeString[0] == 'h' && TypeInteger[0] == 'h' && TypeBoolean[0] == 'h';
    assert TypeDouble[0] == 'h' && TypeAnyUri[0] == 'h';
    assert TypeString[n] == 's' && TypeInteger[n] == 'i' && TypeBoolean[n] == 'b';
    assert TypeDouble[n] == 'd' && TypeAnyUri[n] == 'a';
  }
}
