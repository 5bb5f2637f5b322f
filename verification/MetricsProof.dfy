/**
 Proof of shard-only loading carried in metrics: the searches over nested metrics, what they find, and the
 verdicts the engine and the binary executor draw from them.
 */
module MetricsProof {
  import opened PyValue

  /** Metrics as JSON, with mappings in their iteration order. */
  datatype Metric = Scalar(value: Value) | Node(entries: seq<Entry>) | Many(items: seq<Metric>)
  datatype Entry = Entry(key: string, value: Metric)

  const USED_FULL_MODEL := "usedFullModelForLayerRange"
  const SHARD_ONLY_READY := "shardOnlyLoadingReady"
  const ASSIGNMENT_PRESENT := "assignmentArtifactPresent"

  predicate IsFlagKey(key: string) {
    key == USED_FULL_MODEL || key == SHARD_ONLY_READY || key == ASSIGNMENT_PRESENT
  }

  // ---------------------------------------------------------------- boolean search

  function OwnBool(es: seq<Entry>, key: string): Option<bool> {
    if es == [] then None
    else if es[0].key == key then
      if es[0].value.Scalar? && es[0].value.value.Bool? then Some(es[0].value.value.flag) else None
    else OwnBool(es[1..], key)
  }

  function NestedBool(m: Metric, key: string): Option<bool>
    decreases m, 1
  {
    match m
    case Scalar(_) => None
    case Node(es) => if OwnBool(es, key).Some? then OwnBool(es, key) else NestedBoolEntries(es, key)
    case Many(items) => NestedBoolItems(items, key)
  }

  function NestedBoolEntries(es: seq<Entry>, key: string): Option<bool>
    decreases es, 0
  {
    if es == [] then None
    else
      var found := NestedBool(es[0].value, key);
      if found.Some? then found else NestedBoolEntries(es[1..], key)
  }

  function NestedBoolItems(items: seq<Metric>, key: string): Option<bool>
    decreases items, 0
  {
    if items == [] then None
    else
      var found := NestedBool(items[0], key);
      if found.Some? then found else NestedBoolItems(items[1..], key)
  }

  /** All boolean values stored under `key`, in pre-order: a mapping's own before its children's. */
  ghost function Flags(m: Metric, key: string): seq<bool>
    decreases m, 1
  {
    match m
    case Scalar(_) => []
    case Node(es) => (if OwnBool(es, key).Some? then [OwnBool(es, key).value] else []) + FlagsBelow(es, key)
    case Many(items) => FlagsIn(items, key)
  }

  ghost function FlagsBelow(es: seq<Entry>, key: string): seq<bool>
    decreases es, 0
  {
    if es == [] then [] else Flags(es[0].value, key) + FlagsBelow(es[1..], key)
  }

  ghost function FlagsIn(items: seq<Metric>, key: string): seq<bool>
    decreases items, 0
  {
    if items == [] then [] else Flags(items[0], key) + FlagsIn(items[1..], key)
  }

  function First(s: seq<bool>): Option<bool> { if s == [] then None else Some(s[0]) }

  /** The search returns the first pre-order occurrence, and nothing exactly when there is none. */
  lemma {:induction false} NestedBoolIsFirst(m: Metric, key: string)
    ensures NestedBool(m, key) == First(Flags(m, key))
    decreases m, 1
  {
    match m
    case Scalar(_) =>
    case Node(es) => EntriesFirst(es, key);
    case Many(items) => ItemsFirst(items, key);
  }

  lemma {:induction false} EntriesFirst(es: seq<Entry>, key: string)
    ensures NestedBoolEntries(es, key) == First(FlagsBelow(es, key))
    decreases es, 0
  {
    if es == [] {
    } else {
      NestedBoolIsFirst(es[0].value, key);
      EntriesFirst(es[1..], key);
    }
  }

  lemma {:induction false} ItemsFirst(items: seq<Metric>, key: string)
    ensures NestedBoolItems(items, key) == First(FlagsIn(items, key))
    decreases items, 0
  {
    if items == [] {
    } else {
      NestedBoolIsFirst(items[0], key);
      ItemsFirst(items[1..], key);
    }
  }

  // ---------------------------------------------------------------- reference-backend search

  predicate IsSlotKey(key: string) {
    key == "slotStateMetrics" || key == "slotStateBackendMode" || key == "slotStateReferenceBackend"
        || key == "usedSlotStateBackend"
  }

  predicate IsModeKey(key: string) {
    key == "backendMode" || key == "engineBackendMode" || key == "executorBackendMode" || key == "slotStateBackendMode"
  }

  predicate IsReferenceMode(mode: string) {
    || mode == "assignment_slot_state_executor" || mode == "llama.cpp-slot-state" || mode == "llama_cpp_slot_state"
    || mode == "patched_slot_state_engine" || mode == "slot_state"
  }

  /** `str(child or "").strip()`; the text of a list or mapping is never a mode name. */
  function ModeText(m: Metric): string { if m.Scalar? then Clean(m.value) else "" }

  function ReferenceBackend(m: Metric): Option<string>
    decreases m, 1
  {
    match m
    case Scalar(_) => None
    case Node(es) => ReferenceInEntries(es)
    case Many(items) => ReferenceInItems(items)
  }

  function ReferenceInEntries(es: seq<Entry>): Option<string>
    decreases es, 0
  {
    if es == [] then None
    else
      var found := ReferenceAt(es[0], ReferenceBackend(es[0].value));
      if found.Some? then found else ReferenceInEntries(es[1..])
  }

  /** What one entry contributes, given what the search finds below it. */
  function ReferenceAt(e: Entry, nested: Option<string>): (r: Option<string>)
    ensures r.Some? <==> IsMarker(e) || nested.Some?
    ensures nested != Some("") ==> r != Some("")
  {
    var key, child := Strip(e.key), e.value;
    if IsSlotKey(key) && child.Node? then (if nested.Some? then nested else Some("slot_state"))
    else if IsSlotKey(key) && child.Scalar? && SaysYes(child.value) then Some("slot_state")
    else if IsModeKey(key) && IsReferenceMode(ModeText(child)) then Some(ModeText(child))
    else nested
  }

  function ReferenceInItems(items: seq<Metric>): Option<string>
    decreases items, 0
  {
    if items == [] then None
    else
      var nested := ReferenceBackend(items[0]);
      if nested.Some? then nested else ReferenceInItems(items[1..])
  }

  /** An entry that by itself marks a reference backend. */
  predicate IsMarker(e: Entry) {
    || (IsSlotKey(Strip(e.key)) && (e.value.Node? || (e.value.Scalar? && SaysYes(e.value.value))))
    || (IsModeKey(Strip(e.key)) && IsReferenceMode(ModeText(e.value)))
  }

  /**
   What marks a reference backend: a slot-state key with a mapping or a yes under it, or a backend-mode key with one
   of the reference modes as its text; keys and texts are compared without outer white space.
   */
  lemma MarkerIsExact(e: Entry)
    ensures IsMarker(e) <==>
              || (&& Strip(e.key) in {"slotStateMetrics", "slotStateBackendMode", "slotStateReferenceBackend",
                                      "usedSlotStateBackend"}
                  && (e.value.Node? || (e.value.Scalar? && SaysYes(e.value.value))))
              || (&& Strip(e.key) in {"backendMode", "engineBackendMode", "executorBackendMode", "slotStateBackendMode"}
                  && e.value.Scalar?
                  && Clean(e.value.value) in {"assignment_slot_state_executor", "llama.cpp-slot-state",
                                              "llama_cpp_slot_state", "patched_slot_state_engine", "slot_state"})
  {
  }

  /** No entry anywhere in the tree is a marker. */
  ghost predicate NoMarker(m: Metric)
    decreases m
  {
    match m
    case Scalar(_) => true
    case Node(es) => forall e :: e in es ==> !IsMarker(e) && NoMarker(e.value)
    case Many(items) => forall x :: x in items ==> NoMarker(x)
  }

  /** The search comes back empty exactly when no marker occurs anywhere. */
  lemma {:induction false} ReferenceSearchIsExact(m: Metric)
    ensures ReferenceBackend(m).None? <==> NoMarker(m)
    ensures ReferenceBackend(m).Some? ==> ReferenceBackend(m).value != ""
    decreases m, 1
  {
    match m
    case Scalar(_) =>
    case Node(es) => ReferenceInEntriesIsExact(es);
    case Many(items) => ReferenceInItemsIsExact(items);
  }

  lemma {:induction false} ReferenceInEntriesIsExact(es: seq<Entry>)
    ensures ReferenceInEntries(es).None? <==> forall e :: e in es ==> !IsMarker(e) && NoMarker(e.value)
    ensures ReferenceInEntries(es).Some? ==> ReferenceInEntries(es).value != ""
    decreases es, 0
  {
    if es == [] {
    } else {
      ReferenceSearchIsExact(es[0].value);
      ReferenceInEntriesIsExact(es[1..]);
      assert forall e :: e in es <==> e == es[0] || e in es[1..];
    }
  }

  lemma {:induction false} ReferenceInItemsIsExact(items: seq<Metric>)
    ensures ReferenceInItems(items).None? <==> forall x :: x in items ==> NoMarker(x)
    ensures ReferenceInItems(items).Some? ==> ReferenceInItems(items).value != ""
    decreases items, 0
  {
    if items == [] {
    } else {
      ReferenceSearchIsExact(items[0]);
      ReferenceInItemsIsExact(items[1..]);
      assert forall x :: x in items <==> x == items[0] || x in items[1..];
    }
  }

  // ---------------------------------------------------------------- verdicts

  /** The engine's verdict on executor metrics. */
  predicate ProvesShardOnly(m: Metric) {
    && ReferenceBackend(m).None?
    && NestedBool(m, USED_FULL_MODEL) != Some(true)
    && NestedBool(m, SHARD_ONLY_READY) == Some(true)
    && NestedBool(m, ASSIGNMENT_PRESENT) == Some(true)
  }

  /** The binary executor's check of the binary's own metrics. */
  predicate BinaryProvesShardOnly(m: Metric) {
    && NestedBool(m, USED_FULL_MODEL) != Some(true)
    && NestedBool(m, SHARD_ONLY_READY) == Some(true)
    && NestedBool(m, ASSIGNMENT_PRESENT) != Some(false)
  }

  datatype ArtifactUse = ArtifactUse(kind: string, fallback: Option<string>)
  datatype UseError =
    | ReferenceUsed(mode: string) | FullModelUsed | ShardOnlyUnproven | AssignmentUnproven | ModelUnavailable

  /** Which artifact the engine's receipt will name, from the executor metrics. */
  function ArtifactUsed(m: Metric, shardOnlyRequired: bool, modelAvailable: bool): Result<ArtifactUse, UseError> {
    var full, ready := NestedBool(m, USED_FULL_MODEL), NestedBool(m, SHARD_ONLY_READY);
    var present, reference := NestedBool(m, ASSIGNMENT_PRESENT), ReferenceBackend(m);
    if shardOnlyRequired && reference.Some? then Err(ReferenceUsed(reference.value))
    else if shardOnlyRequired && full == Some(true) then Err(FullModelUsed)
    else if shardOnlyRequired && ready != Some(true) then Err(ShardOnlyUnproven)
    else if shardOnlyRequired && present == Some(false) then Err(AssignmentUnproven)
    else if full == Some(true) then
      if !modelAvailable then Err(ModelUnavailable) else Ok(ArtifactUse("model", Some("full_model")))
    else if reference.Some? then Ok(ArtifactUse("assignment", Some("slot_state_reference")))
    else Ok(ArtifactUse("assignment", None))
  }

  /** The first report of the flag, in pre-order, is `value`. */
  ghost predicate Reports(m: Metric, key: string, value: bool) { First(Flags(m, key)) == Some(value) }

  /** The binary's proof in terms of what its metrics report first: no full model, ready, and no denied assignment. */
  lemma BinaryProofMeans(m: Metric)
    ensures BinaryProvesShardOnly(m) <==>
              && !Reports(m, USED_FULL_MODEL, true) && Reports(m, SHARD_ONLY_READY, true)
              && !Reports(m, ASSIGNMENT_PRESENT, false)
  {
    NestedBoolIsFirst(m, USED_FULL_MODEL);
    NestedBoolIsFirst(m, SHARD_ONLY_READY);
    NestedBoolIsFirst(m, ASSIGNMENT_PRESENT);
  }

  /** The engine's verdict likewise; it also wants the assignment confirmed and no reference backend anywhere. */
  lemma EngineProofMeans(m: Metric)
    ensures ProvesShardOnly(m) <==>
              && NoMarker(m) && !Reports(m, USED_FULL_MODEL, true) && Reports(m, SHARD_ONLY_READY, true)
              && Reports(m, ASSIGNMENT_PRESENT, true)
  {
    ReferenceSearchIsExact(m);
    NestedBoolIsFirst(m, USED_FULL_MODEL);
    NestedBoolIsFirst(m, SHARD_ONLY_READY);
    NestedBoolIsFirst(m, ASSIGNMENT_PRESENT);
  }

  /**
   Which artifact the engine's receipt will name: the model exactly when its use is reported, which the requirement
   refuses and which needs a model artifact; else the assignment, with a reference backend declared as the fallback.
   */
  lemma ArtifactUsedMeans(m: Metric, required: bool, modelAvailable: bool)
    ensures var use, full := ArtifactUsed(m, required, modelAvailable), Reports(m, USED_FULL_MODEL, true);
            && (use.Ok? <==>
                  if required then
                    && NoMarker(m) && !full && Reports(m, SHARD_ONLY_READY, true)
                    && !Reports(m, ASSIGNMENT_PRESENT, false)
                  else full ==> modelAvailable)
            && (use.Ok? && full ==> use.value == ArtifactUse("model", Some("full_model")))
            && (use.Ok? && !full && !NoMarker(m) ==>
                  use.value == ArtifactUse("assignment", Some("slot_state_reference")))
            && (use.Ok? && !full && NoMarker(m) ==> use.value == ArtifactUse("assignment", None))
  {
    ReferenceSearchIsExact(m);
    NestedBoolIsFirst(m, USED_FULL_MODEL);
    NestedBoolIsFirst(m, SHARD_ONLY_READY);
    NestedBoolIsFirst(m, ASSIGNMENT_PRESENT);
  }

  // ---------------------------------------------------------------- production requirements

  /** `contractMatches`: the ABI names, boundaries and capability lists are the required ones. */
  datatype Requirements = Requirements(contractMatches: bool, realState: Value, shardOnly: Value, forbidFallback: Value)

  /** The bridge takes the flags by `bool()`. */
  predicate BridgeAccepts(r: Option<Requirements>) {
    r.Some? && r.value.contractMatches && Truthy(r.value.realState) && Truthy(r.value.shardOnly)
        && Truthy(r.value.forbidFallback)
  }

  /** The engine reads the same flags by `_truthy`. */
  predicate ShardOnlyRequired(r: Option<Requirements>) {
    r.Some? && (SaysYes(r.value.shardOnly) || SaysYes(r.value.forbidFallback))
  }

  /** The flags as the number 2: set for the bridge, not for the engine. */
  lemma LaxFlagsPassTheBridgeOnly()
    ensures var r := Some(Requirements(true, Bool(true), Num(2), Num(2))); BridgeAccepts(r) && !ShardOnlyRequired(r)
  {
    assert Decimal(2) == "2";
    assert Lower("2") == "2";
  }

  /** Required shard-only loading and an accepted executor leave only one possible artifact use. */
  lemma RequiredShardOnlyIsProven(m: Metric, modelAvailable: bool)
    requires ArtifactUsed(m, true, modelAvailable).Ok?
    ensures ArtifactUsed(m, true, modelAvailable).value == ArtifactUse("assignment", None)
    ensures NoMarker(m) && BinaryProvesShardOnly(m) && Flags(m, SHARD_ONLY_READY) != [] && Flags(m, SHARD_ONLY_READY)[0]
  {
    ReferenceSearchIsExact(m);
    NestedBoolIsFirst(m, SHARD_ONLY_READY);
  }
}
