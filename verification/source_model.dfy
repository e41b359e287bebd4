/** The Dataflow API records a sub-source dictionary is turned into. Every
    field the parser may leave unset is an `Option`, so "absent" is never
    confused with `false` or `0`. */
module SourceModel {

  import opened Wrappers
  import opened Values

  /** `SourceMetadata`: three independently optional facts. */
  datatype SourceMetadata = SourceMetadata(
    producesSortedKeys: Option<bool>,
    infinite: Option<bool>,
    estimatedSizeBytes: Option<Int64>)
  {
    /** At least one of the three facts is set. */
    predicate HasAnyField() {
      producesSortedKeys.Some? || infinite.Some? || estimatedSizeBytes.Some?
    }
  }

  /** `Source`: the descriptor of one sub-source. The spec is always set. */
  datatype Source = Source(
    spec: CloudObject,
    codec: Option<CloudObject>,
    baseSpecs: Option<seq<Dictionary>>,
    metadata: Option<SourceMetadata>,
    doesNotNeedSplitting: Option<bool>)
  {
    /** The parser never attaches an empty metadata group. */
    predicate WellFormed() {
      metadata.Some? ==> metadata.value.HasAnyField()
    }
  }
}
