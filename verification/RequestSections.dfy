/** The fields every shard request carries in `shardSpec` and, as a fallback, in `frame`. */
module RequestSections {
  import opened PyValue

  datatype Section = Absent | Section(sessionId: Value, modelId: Value, layerStart: Value, layerEnd: Value)

  function ModelIdOf(shardSpec: Section, frame: Section): (r: Option<string>)
    ensures r.Some? ==> Trimmed(r.value) && r.value != ""
  {
    if shardSpec.Section? && Clean(shardSpec.modelId) != "" then Some(Clean(shardSpec.modelId))
    else if frame.Section? && Clean(frame.modelId) != "" then Some(Clean(frame.modelId))
    else None
  }

  /** A layer bound as the engine reads it: any integer, `shardSpec` first. */
  function LayerStartOf(shardSpec: Section, frame: Section): Option<int> {
    if shardSpec.Section? && OptInt(shardSpec.layerStart).Some? then OptInt(shardSpec.layerStart)
    else if frame.Section? then OptInt(frame.layerStart) else None
  }

  function LayerEndOf(shardSpec: Section, frame: Section): Option<int> {
    if shardSpec.Section? && OptInt(shardSpec.layerEnd).Some? then OptInt(shardSpec.layerEnd)
    else if frame.Section? then OptInt(frame.layerEnd) else None
  }

  /** A layer bound as receipts state it: a negative `shardSpec` bound falls through to the frame. */
  function ReceiptLayerStart(shardSpec: Section, frame: Section): Option<nat> {
    if shardSpec.Section? && OptNat(shardSpec.layerStart).Some? then OptNat(shardSpec.layerStart)
    else if frame.Section? then OptNat(frame.layerStart) else None
  }

  function ReceiptLayerEnd(shardSpec: Section, frame: Section): Option<nat> {
    if shardSpec.Section? && OptNat(shardSpec.layerEnd).Some? then OptNat(shardSpec.layerEnd)
    else if frame.Section? then OptNat(frame.layerEnd) else None
  }

  // ---------------------------------------------------------------- which section decides

  /** What a section states, read in one way or another. */
  function Stated<T>(x: Section, read: Section -> Option<T>): Option<T> { if x.Section? then read(x) else None }

  /** The first section that states something readable decides. */
  predicate FirstStated<T(==)>(shardSpec: Section, frame: Section, read: Section -> Option<T>, r: Option<T>) {
    && (Stated(shardSpec, read).Some? ==> r == Stated(shardSpec, read))
    && (Stated(shardSpec, read).None? ==> r == Stated(frame, read))
  }

  /** Every field is looked up in `shardSpec` first, and an unreadable or blank one there falls through to the frame. */
  lemma ShardSpecDecidesFirst(shardSpec: Section, frame: Section)
    ensures FirstStated(shardSpec, frame, (x: Section) => if x.Section? then CleanOrNone(x.modelId) else None,
                        ModelIdOf(shardSpec, frame))
    ensures FirstStated(shardSpec, frame, (x: Section) => if x.Section? then OptInt(x.layerStart) else None,
                        LayerStartOf(shardSpec, frame))
    ensures FirstStated(shardSpec, frame, (x: Section) => if x.Section? then OptInt(x.layerEnd) else None,
                        LayerEndOf(shardSpec, frame))
    ensures FirstStated(shardSpec, frame, (x: Section) => if x.Section? then OptNat(x.layerStart) else None,
                        ReceiptLayerStart(shardSpec, frame))
    ensures FirstStated(shardSpec, frame, (x: Section) => if x.Section? then OptNat(x.layerEnd) else None,
                        ReceiptLayerEnd(shardSpec, frame))
  {
  }
}
