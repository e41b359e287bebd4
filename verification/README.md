# Concat source configuration parser

This project models the configuration-parsing core of the Dataflow worker's
`ConcatReaderFactory`. A concat source is one logical input made of an
ordered list of sub-sources. Its spec is a generic key/value tree.

- `createSourceFromDictionary` turns one sub-source dictionary into a `Source` descriptor.
- `getSubSources` reads the ordered list of those dictionaries from the concat spec.
- `createTyped` hands the parsed list, the factory's registry and the shared collaborators to the `ConcatReader` constructor.

Files:

- `wrappers.dfy` (module `Wrappers`): `Option` for Java `null`, and `Result` for a thrown exception.
- `values.dfy` (module `Values`): the configuration tree (`Value`, `Dictionary`), `CloudObject`, and `CloudObject.fromSpec` as a wrap that keeps the dictionary's fields.
- `structs.dfy` (module `Structs`): the typed getters `getObject`, `getBoolean`, `getLong` and `getListOfMaps`. Each is a total lookup with the exceptions `ParameterNotFound` and `IncorrectType`.
- `property_names.dfy` (module `PropertyNames`): the eight dictionary keys, and the order in which the factory reads the seven sub-source keys.
- `source_model.dfy` (module `SourceModel`): the `Source` and `SourceMetadata` records. Every optional field is an `Option`.
- `source_format.dfy` (module `SourceFormat`): the wire format, stated without reference to the parser.
  - `Accepts`: which dictionaries parse.
  - `FirstRaised`: which error a malformed dictionary raises.
  - `Describes`: each field is set iff its key is present, and then holds exactly the supplied value.
  - `Render`: writes a descriptor back as a dictionary.
- `concat_reader_factory.dfy` (module `ConcatReaderFactory`): the three operations.
- `concat_reader_factory_properties.dfy` (module `ConcatReaderFactoryProperties`): lemmas that relate several calls.

The dictionary key spellings follow the service's wire format (`spec`,
`encoding`, `base_specs`, ...). `PropertyNames` itself is not part of this
model, so no proof depends on the spellings beyond the keys being distinct.

## Model

| member | source | states |
|---|---|---|
| ConcatReaderFactory.CreateSourceFromDictionary | sdk/src/main/java/com/google/cloud/dataflow/sdk/runners/worker/ConcatReaderFactory.java:113-162 | The parse succeeds exactly when the spec key holds a dictionary and every other present key has its shape. On success the descriptor's spec is the spec entry. Codec, base specs, each metadata field and doesNotNeedSplitting are each set iff their key is present, holding exactly the supplied value and never a default false or 0. Metadata is attached iff one of its three keys is present. On failure, the error belongs to the first missing or malformed key in reading order. |
| ConcatReaderFactory.ParseSubSourceList | sdk/src/main/java/com/google/cloud/dataflow/sdk/runners/worker/ConcatReaderFactory.java:105-110 | The list parses iff every element parses. On success the result has the input's length, and element i is element i's descriptor, so order is kept. On failure the error is the first failing element's error, every element before it parsed, and no partial list is returned. |
| ConcatReaderFactory.GetSubSources | sdk/src/main/java/com/google/cloud/dataflow/sdk/runners/worker/ConcatReaderFactory.java:95-111 | A spec without the sub-sources key yields the empty list, not an error. A sub-sources entry that is not a list of maps fails. Otherwise the result is the element-wise parse of the list in order, and it fails iff some element fails, with the first failing element's error. |
| ConcatReaderFactory.CreateTyped | sdk/src/main/java/com/google/cloud/dataflow/sdk/runners/worker/ConcatReaderFactory.java:82-93 | The reader is built iff the sub-source list parses, and otherwise fails with that error. The reader holds the factory's registry, the shared collaborators unchanged and exactly the parsed list. |
| ConcatReaderFactoryProperties.ParseRenderRoundTrip | sdk/src/main/java/com/google/cloud/dataflow/sdk/runners/worker/ConcatReaderFactory.java:113-162 | Writing out a descriptor that carries no empty metadata group and parsing it back returns the same descriptor. Absent fields come back absent. |
| ConcatReaderFactoryProperties.RenderParseRoundTrip | sdk/src/main/java/com/google/cloud/dataflow/sdk/runners/worker/ConcatReaderFactory.java:122-159 | After a successful parse, writing the descriptor back reproduces the seven property keys of the input exactly. In particular the base-spec list is stored unchanged. |
| ConcatReaderFactoryProperties.ParseReadsOnlySourceKeys | sdk/src/main/java/com/google/cloud/dataflow/sdk/runners/worker/ConcatReaderFactory.java:113-162 | Two dictionaries that agree on the seven property keys parse to the same outcome, descriptor or error. Keys other than the seven never matter. |
| ConcatReaderFactoryProperties.SpecOnly | sdk/src/main/java/com/google/cloud/dataflow/sdk/runners/worker/ConcatReaderFactory.java:116-119 | A dictionary holding only a spec yields that spec with every optional field absent. |
| ConcatReaderFactoryProperties.MissingSpecFails | sdk/src/main/java/com/google/cloud/dataflow/sdk/runners/worker/ConcatReaderFactory.java:117-118 | A dictionary lacking the spec key fails with ParameterNotFound on the spec, whatever else it holds. |
| ConcatReaderFactoryProperties.ParseSubSourceListFailedPrefix | sdk/src/main/java/com/google/cloud/dataflow/sdk/runners/worker/ConcatReaderFactory.java:105-108 | Once an element fails, the list's result is that failure, whatever follows it. |
| ConcatReaderFactoryProperties.ParseSubSourceListParsedPrefix | sdk/src/main/java/com/google/cloud/dataflow/sdk/runners/worker/ConcatReaderFactory.java:105-110 | After a prefix that parses, the whole list parses to the prefix's descriptors followed, in order, by the rest's. If the rest fails, the whole list fails with the rest's error. |
| ConcatReaderFactoryProperties.GetSubSourcesReadsOnlySources | sdk/src/main/java/com/google/cloud/dataflow/sdk/runners/worker/ConcatReaderFactory.java:95-103 | Two concat specs with the same sub-sources entry, or neither having one, give the same sub-source list or error. |

## Left out

- `create` (lines 67-80) only casts the coder to `Coder<Object>` and calls `createTyped`. The cast is a Java typing artefact, so only `CreateTyped` is modelled.
- `withRegistry` and `withDefaultRegistry`: the `Factory` constructor stands for `withRegistry`. `ReaderRegistry` is not part of this model, and the registry is a type parameter that is only forwarded.
- `ConcatReader` is not part of this model: its iteration, progress, splitting and metadata composition are left out. `CreateTyped` stops at the constructor arguments.
- `ReaderFactory.java` is an interface with no behaviour.
- `Coder`, `PipelineOptions`, `ExecutionContext` and `CounterSet.AddCounterMutator` are opaque type parameters, forwarded untouched.
- `Structs` is not part of this model. Its getters are modelled with three assumptions:
  - an absent key yields the default, or `ParameterNotFound` when no default is given;
  - a key present with the wrong shape, including Java `null`, raises `IncorrectType`;
  - no value is coerced, for example a string is never decoded to a boolean.
- `CloudObject.fromSpec` is treated as a wrap that keeps the dictionary's fields and maps absent to absent. How it interprets a type tag is not modelled.
- Integers in the tree are Java `long` values (`Int64`). The code performs no range check on `estimatedSizeBytes`, and none is modelled.
- `createTyped` receives a coder but does not pass it to `ConcatReader` (lines 91-92). `CreateTyped` accepts the coder and drops it.
