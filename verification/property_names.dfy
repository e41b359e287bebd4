/** The dictionary keys the concat factory reads. Their concrete spelling is
    the wire format's; the model relies only on their being distinct. */
module PropertyNames {

  const CONCAT_SOURCE_SOURCES: string := "sources"
  const SOURCE_SPEC: string := "spec"
  const ENCODING: string := "encoding"
  const CONCAT_SOURCE_BASE_SPECS: string := "base_specs"
  const SOURCE_PRODUCES_SORTED_KEYS: string := "produces_sorted_keys"
  const SOURCE_IS_INFINITE: string := "is_infinite"
  const SOURCE_ESTIMATED_SIZE_BYTES: string := "estimated_size_bytes"
  const SOURCE_DOES_NOT_NEED_SPLITTING: string := "does_not_need_splitting"

  /** The seven keys of one sub-source dictionary, in the order the factory
      reads them; when several are malformed, the first one in this order is
      the one reported. */
  const SourceKeyOrder: seq<string> := [
    SOURCE_SPEC, ENCODING, CONCAT_SOURCE_BASE_SPECS,
    SOURCE_PRODUCES_SORTED_KEYS, SOURCE_IS_INFINITE,
    SOURCE_ESTIMATED_SIZE_BYTES, SOURCE_DOES_NOT_NEED_SPLITTING
  ]

  /** The seven sub-source keys as a set: the elements of `SourceKeyOrder`,
      spelled out so that membership costs the verifier no comprehension. */
  const SourceKeys: set<string> := {
    SOURCE_SPEC, ENCODING, CONCAT_SOURCE_BASE_SPECS,
    SOURCE_PRODUCES_SORTED_KEYS, SOURCE_IS_INFINITE,
    SOURCE_ESTIMATED_SIZE_BYTES, SOURCE_DOES_NOT_NEED_SPLITTING
  }

  /** `SourceKeys` and `SourceKeyOrder` name the same seven keys. */
  lemma SourceKeysMatchOrder()
    ensures forall k :: k in SourceKeys <==> k in SourceKeyOrder
  {
  }
}
