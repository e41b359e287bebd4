/** `ConcatReaderFactory`: builds a concatenating reader from a concat
    source spec by parsing its ordered list of sub-source dictionaries. */
module ConcatReaderFactory {

  import opened Wrappers
  import opened Values
  import opened Structs
  import opened PropertyNames
  import opened SourceModel
  import opened SourceFormat

  /** `createSourceFromDictionary`: the spec is required, every other field
      is set only when its key is present, and the metadata group only when
      one of its three keys is. Lookups run in `SourceKeyOrder`, so the first
      malformed key in that order is the one reported. */
  function CreateSourceFromDictionary(d: Dictionary): (r: Result<Source, Error>)
    ensures r.Success? <==> Accepts(d)
    ensures r.Success? ==> Describes(r.value, d)
    ensures r.Success? ==> r.value.WellFormed()
    ensures r.Failure? ==> FirstRaised(d, r.error)
  {
    ReadingOrderUnfolded(d);
    var specMap :- GetObject(d, SOURCE_SPEC);
    var spec := FromSpec(Some(specMap)).value;
    var encodingMap :- GetOptionalObject(d, ENCODING);
    var codec := FromSpec(encodingMap);
    var baseSpecs :- GetOptionalListOfMaps(d, CONCAT_SOURCE_BASE_SPECS);
    var producesSortedKeys :- GetOptionalBoolean(d, SOURCE_PRODUCES_SORTED_KEYS);
    var infinite :- GetOptionalBoolean(d, SOURCE_IS_INFINITE);
    var estimatedSizeBytes :- GetOptionalLong(d, SOURCE_ESTIMATED_SIZE_BYTES);
    var metadata :=
      if producesSortedKeys.Some? || estimatedSizeBytes.Some? || infinite.Some?
      then Some(SourceMetadata(producesSortedKeys, infinite, estimatedSizeBytes))
      else None;
    var doesNotNeedSplitting :- GetOptionalBoolean(d, SOURCE_DOES_NOT_NEED_SPLITTING);
    Success(Source(spec, codec, baseSpecs, metadata, doesNotNeedSplitting))
  }

  /** The loop over the sub-source dictionaries: each is parsed in list
      order, and the first one that fails aborts the whole list. */
  function ParseSubSourceList(ds: seq<Dictionary>): (r: Result<seq<Source>, Error>)
    ensures r.Success? <==>
      forall i :: 0 <= i < |ds| ==> CreateSourceFromDictionary(ds[i]).Success?
    ensures r.Success? ==> |r.value| == |ds|
    ensures r.Success? ==>
      forall i {:trigger ds[i]} :: 0 <= i < |ds| ==> CreateSourceFromDictionary(ds[i]) == Success(r.value[i])
    ensures r.Failure? ==>
      exists i :: 0 <= i < |ds| && CreateSourceFromDictionary(ds[i]) == Failure(r.error)
        && forall j :: 0 <= j < i ==> CreateSourceFromDictionary(ds[j]).Success?
  {
    if |ds| == 0 then Success([])
    else
      var head :- CreateSourceFromDictionary(ds[0]);
      var tail :- ParseSubSourceList(ds[1..]);
      Success([head] + tail)
  }

  /** `getSubSources`: the sub-source list of a concat spec. A missing list
      is the empty list; otherwise every entry is parsed, in order. */
  function GetSubSources(spec: CloudObject): (r: Result<seq<Source>, Error>)
    ensures CONCAT_SOURCE_SOURCES !in spec.fields ==> r == Success([])
    ensures CONCAT_SOURCE_SOURCES in spec.fields && !IsListOfMaps(spec.fields[CONCAT_SOURCE_SOURCES])
      ==> r == Failure(IncorrectType(CONCAT_SOURCE_SOURCES))
    ensures CONCAT_SOURCE_SOURCES in spec.fields && IsListOfMaps(spec.fields[CONCAT_SOURCE_SOURCES]) ==>
      var items := spec.fields[CONCAT_SOURCE_SOURCES].items;
      && (r.Success? <==>
            forall i :: 0 <= i < |items| ==> CreateSourceFromDictionary(items[i].fields).Success?)
      && (r.Success? ==> |r.value| == |items|)
      && (r.Success? ==>
            forall i :: 0 <= i < |items| ==> CreateSourceFromDictionary(items[i].fields) == Success(r.value[i]))
      && (r.Failure? ==>
            exists i :: 0 <= i < |items| && CreateSourceFromDictionary(items[i].fields) == Failure(r.error)
              && forall j :: 0 <= j < i ==> CreateSourceFromDictionary(items[j].fields).Success?)
  {
    var dictionaries :- GetOptionalListOfMaps(spec.fields, CONCAT_SOURCE_SOURCES);
    match dictionaries
    case None => Success([])
    case Some(ds) => ParseSubSourceList(ds)
  }

  /** The factory holds only the registry sub-readers are later built from. */
  datatype Factory<Registry> = Factory(registry: Registry)

  /** The collaborators forwarded, uninterpreted, to every sub-reader. */
  datatype SharedContext<Options, ExecutionContext, CounterMutator> = SharedContext(
    options: Option<Options>,
    executionContext: Option<ExecutionContext>,
    addCounterMutator: Option<CounterMutator>,
    operationName: Option<string>)

  /** The arguments a `ConcatReader` is constructed with. */
  datatype ConcatReader<Registry, Options, ExecutionContext, CounterMutator> = ConcatReader(
    registry: Registry,
    context: SharedContext<Options, ExecutionContext, CounterMutator>,
    sources: seq<Source>)

  /** `createTyped`: parses the sub-source list and hands it, with the
      factory's registry and the shared context, to the reader. The coder is
      accepted but not passed on. */
  function CreateTyped<Registry, Coder, Options, ExecutionContext, CounterMutator>(
    factory: Factory<Registry>,
    spec: CloudObject,
    coder: Option<Coder>,
    context: SharedContext<Options, ExecutionContext, CounterMutator>)
    : (r: Result<ConcatReader<Registry, Options, ExecutionContext, CounterMutator>, Error>)
    ensures r.Success? <==> GetSubSources(spec).Success?
    ensures r.Failure? ==> r.error == GetSubSources(spec).error
    ensures r.Success? ==>
      && r.value.registry == factory.registry
      && r.value.context == context
      && r.value.sources == GetSubSources(spec).value
  {
    var sources :- GetSubSources(spec);
    Success(ConcatReader(factory.registry, context, sources))
  }
}
