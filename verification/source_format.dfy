/** The wire format of one sub-source dictionary, stated independently of
    the parser: which shapes each key admits, when a `Source` describes a
    dictionary, and how a `Source` is written back as a dictionary. */
module SourceFormat {

  import opened Wrappers
  import opened Values
  import opened Structs
  import opened PropertyNames
  import opened SourceModel

  /** The shape a value must have under each of the seven keys. */
  predicate WellShaped(key: string, v: Value) {
    if key == SOURCE_SPEC || key == ENCODING then v.Dict?
    else if key == CONCAT_SOURCE_BASE_SPECS then IsListOfMaps(v)
    else if key == SOURCE_ESTIMATED_SIZE_BYTES then v.Long?
    else if key == SOURCE_PRODUCES_SORTED_KEYS || key == SOURCE_IS_INFINITE
         || key == SOURCE_DOES_NOT_NEED_SPLITTING then v.Bool?
    else true
  }

  /** Key `key` of `d` raises nothing: the spec is present, and whatever is
      present has its shape. */
  predicate Fine(d: Dictionary, key: string) {
    && (key == SOURCE_SPEC ==> key in d)
    && (key in d ==> WellShaped(key, d[key]))
  }

  /** The error `e` is the one raised for key `key` of `d`. */
  predicate Raises(d: Dictionary, key: string, e: Error) {
    || (key == SOURCE_SPEC && key !in d && e == ParameterNotFound(key))
    || (key in d && !WellShaped(key, d[key]) && e == IncorrectType(key))
  }

  /** The dictionaries the parser accepts. */
  predicate Accepts(d: Dictionary) {
    forall i :: 0 <= i < |SourceKeyOrder| ==> Fine(d, SourceKeyOrder[i])
  }

  /** `e` is the error for the first key, in reading order, that raises one. */
  predicate FirstRaised(d: Dictionary, e: Error) {
    exists i :: 0 <= i < |SourceKeyOrder| && Raises(d, SourceKeyOrder[i], e)
      && forall j :: 0 <= j < i ==> Fine(d, SourceKeyOrder[j])
  }

  /** `Accepts` and `FirstRaised` key by key, in reading order. */
  lemma ReadingOrderUnfolded(d: Dictionary)
    ensures Accepts(d) <==>
      && Fine(d, SOURCE_SPEC) && Fine(d, ENCODING) && Fine(d, CONCAT_SOURCE_BASE_SPECS)
      && Fine(d, SOURCE_PRODUCES_SORTED_KEYS) && Fine(d, SOURCE_IS_INFINITE)
      && Fine(d, SOURCE_ESTIMATED_SIZE_BYTES) && Fine(d, SOURCE_DOES_NOT_NEED_SPLITTING)
    ensures forall e {:trigger FirstRaised(d, e)} ::
      (|| Raises(d, SOURCE_SPEC, e)
       || (Fine(d, SOURCE_SPEC) && Raises(d, ENCODING, e))
       || (Fine(d, SOURCE_SPEC) && Fine(d, ENCODING) && Raises(d, CONCAT_SOURCE_BASE_SPECS, e))
       || (Fine(d, SOURCE_SPEC) && Fine(d, ENCODING) && Fine(d, CONCAT_SOURCE_BASE_SPECS)
           && Raises(d, SOURCE_PRODUCES_SORTED_KEYS, e))
       || (Fine(d, SOURCE_SPEC) && Fine(d, ENCODING) && Fine(d, CONCAT_SOURCE_BASE_SPECS)
           && Fine(d, SOURCE_PRODUCES_SORTED_KEYS) && Raises(d, SOURCE_IS_INFINITE, e))
       || (Fine(d, SOURCE_SPEC) && Fine(d, ENCODING) && Fine(d, CONCAT_SOURCE_BASE_SPECS)
           && Fine(d, SOURCE_PRODUCES_SORTED_KEYS) && Fine(d, SOURCE_IS_INFINITE)
           && Raises(d, SOURCE_ESTIMATED_SIZE_BYTES, e))
       || (Fine(d, SOURCE_SPEC) && Fine(d, ENCODING) && Fine(d, CONCAT_SOURCE_BASE_SPECS)
           && Fine(d, SOURCE_PRODUCES_SORTED_KEYS) && Fine(d, SOURCE_IS_INFINITE)
           && Fine(d, SOURCE_ESTIMATED_SIZE_BYTES) && Raises(d, SOURCE_DOES_NOT_NEED_SPLITTING, e)))
      ==> FirstRaised(d, e)
  {
    var keys := SourceKeyOrder;
    assert keys[0] == SOURCE_SPEC && keys[1] == ENCODING && keys[2] == CONCAT_SOURCE_BASE_SPECS;
    assert keys[3] == SOURCE_PRODUCES_SORTED_KEYS && keys[4] == SOURCE_IS_INFINITE;
    assert keys[5] == SOURCE_ESTIMATED_SIZE_BYTES && keys[6] == SOURCE_DOES_NOT_NEED_SPLITTING;
    forall e | Raises(d, SOURCE_SPEC, e)
      ensures FirstRaised(d, e)
    {
      assert Raises(d, SourceKeyOrder[0], e);
    }
    forall e | Fine(d, SOURCE_SPEC) && Raises(d, ENCODING, e)
      ensures FirstRaised(d, e)
    {
      assert Raises(d, SourceKeyOrder[1], e);
    }
    forall e | Fine(d, SOURCE_SPEC) && Fine(d, ENCODING) && Raises(d, CONCAT_SOURCE_BASE_SPECS, e)
      ensures FirstRaised(d, e)
    {
      assert Raises(d, SourceKeyOrder[2], e);
    }
    forall e | Fine(d, SOURCE_SPEC) && Fine(d, ENCODING) && Fine(d, CONCAT_SOURCE_BASE_SPECS)
               && Raises(d, SOURCE_PRODUCES_SORTED_KEYS, e)
      ensures FirstRaised(d, e)
    {
      assert Raises(d, SourceKeyOrder[3], e);
    }
    forall e | Fine(d, SOURCE_SPEC) && Fine(d, ENCODING) && Fine(d, CONCAT_SOURCE_BASE_SPECS)
               && Fine(d, SOURCE_PRODUCES_SORTED_KEYS) && Raises(d, SOURCE_IS_INFINITE, e)
      ensures FirstRaised(d, e)
    {
      assert Raises(d, SourceKeyOrder[4], e);
    }
    forall e | Fine(d, SOURCE_SPEC) && Fine(d, ENCODING) && Fine(d, CONCAT_SOURCE_BASE_SPECS)
               && Fine(d, SOURCE_PRODUCES_SORTED_KEYS) && Fine(d, SOURCE_IS_INFINITE)
               && Raises(d, SOURCE_ESTIMATED_SIZE_BYTES, e)
      ensures FirstRaised(d, e)
    {
      assert Raises(d, SourceKeyOrder[5], e);
    }
    forall e | Fine(d, SOURCE_SPEC) && Fine(d, ENCODING) && Fine(d, CONCAT_SOURCE_BASE_SPECS)
               && Fine(d, SOURCE_PRODUCES_SORTED_KEYS) && Fine(d, SOURCE_IS_INFINITE)
               && Fine(d, SOURCE_ESTIMATED_SIZE_BYTES) && Raises(d, SOURCE_DOES_NOT_NEED_SPLITTING, e)
      ensures FirstRaised(d, e)
    {
      assert Raises(d, SourceKeyOrder[6], e);
    }
  }

  /** An optional boolean field holds exactly the value under `key`, and is
      unset exactly when `key` is absent. */
  predicate BoolAt(d: Dictionary, key: string, o: Option<bool>) {
    && (o.Some? <==> key in d)
    && (o.Some? ==> d[key] == Bool(o.value))
  }

  /** The same for an optional `long` field. */
  predicate LongAt(d: Dictionary, key: string, o: Option<Int64>) {
    && (o.Some? <==> key in d)
    && (o.Some? ==> d[key] == Long(o.value))
  }

  /** `s` is the descriptor of `d`: each field is set iff its key is present,
      and then holds exactly the supplied value. */
  predicate Describes(s: Source, d: Dictionary) {
    && SOURCE_SPEC in d && d[SOURCE_SPEC] == Dict(s.spec.fields)
    && (s.codec.Some? <==> ENCODING in d)
    && (s.codec.Some? ==> d[ENCODING] == Dict(s.codec.value.fields))
    && (s.baseSpecs.Some? <==> CONCAT_SOURCE_BASE_SPECS in d)
    && (s.baseSpecs.Some? ==> d[CONCAT_SOURCE_BASE_SPECS] == ListOfMaps(s.baseSpecs.value))
    && (s.metadata.Some? <==>
          (|| SOURCE_PRODUCES_SORTED_KEYS in d
           || SOURCE_IS_INFINITE in d
           || SOURCE_ESTIMATED_SIZE_BYTES in d))
    && (s.metadata.Some? ==>
          && BoolAt(d, SOURCE_PRODUCES_SORTED_KEYS, s.metadata.value.producesSortedKeys)
          && BoolAt(d, SOURCE_IS_INFINITE, s.metadata.value.infinite)
          && LongAt(d, SOURCE_ESTIMATED_SIZE_BYTES, s.metadata.value.estimatedSizeBytes))
    && BoolAt(d, SOURCE_DOES_NOT_NEED_SPLITTING, s.doesNotNeedSplitting)
  }

  /** The part of `d` the seven keys cover. */
  function Restrict(d: Dictionary): (r: Dictionary)
    ensures r.Keys == d.Keys * SourceKeys
    ensures forall k :: k in r ==> r[k] == d[k]
  {
    map k | k in d && k in SourceKeys :: d[k]
  }

  /** The value `s` writes under `key`, if any. */
  function FieldValue(s: Source, key: string): Option<Value> {
    var m := if s.metadata.Some? then s.metadata.value else SourceMetadata(None, None, None);
    if key == SOURCE_SPEC then Some(Dict(s.spec.fields))
    else if key == ENCODING then
      (if s.codec.Some? then Some(Dict(s.codec.value.fields)) else None)
    else if key == CONCAT_SOURCE_BASE_SPECS then
      (if s.baseSpecs.Some? then Some(ListOfMaps(s.baseSpecs.value)) else None)
    else if key == SOURCE_PRODUCES_SORTED_KEYS then
      (if m.producesSortedKeys.Some? then Some(Bool(m.producesSortedKeys.value)) else None)
    else if key == SOURCE_IS_INFINITE then
      (if m.infinite.Some? then Some(Bool(m.infinite.value)) else None)
    else if key == SOURCE_ESTIMATED_SIZE_BYTES then
      (if m.estimatedSizeBytes.Some? then Some(Long(m.estimatedSizeBytes.value)) else None)
    else if key == SOURCE_DOES_NOT_NEED_SPLITTING then
      (if s.doesNotNeedSplitting.Some? then Some(Bool(s.doesNotNeedSplitting.value)) else None)
    else None
  }

  /** Writes `s` back as the dictionary it was read from: the inverse of the
      parser on well-formed descriptors. */
  function Render(s: Source): (d: Dictionary)
    ensures d.Keys <= SourceKeys
    ensures s.WellFormed() ==> Describes(s, d)
  {
    map k | k in SourceKeys && FieldValue(s, k).Some? :: FieldValue(s, k).value
  }
}
