/**
 The engine's receipt for one process request, from the executor's metrics to the bridge's validator: every receipt
 it yields is accepted, and exactly when no receipt can name the full model.
 */
module EngineReceipts {
  import opened PyValue
  import opened ArtifactContract
  import opened RequestSections
  import opened MetricsProof
  import opened MetricsOrder
  import opened MetricsLayers
  import opened Receipts

  datatype YieldError = UseRefused(use: UseError) | SelectRefused(select: SelectError)

  /** A model artifact is among the resolved ones. */
  predicate ModelAtHand(r: ReceiptRequest) { r.resolution.Some? && r.resolution.value.model.Some? }

  function BuildFor(w: World, r: ReceiptRequest, kind: string,
                    fallback: Option<string>): Result<Option<Receipt>, YieldError> {
    var built := Build(w, r, Some(kind), true, fallback);
    if built.Err? then Err(SelectRefused(built.error)) else Ok(built.value)
  }

  /**
   What the engine puts into its response: without an executor it used the assignment; with one, the executor's
   metrics say what was used.
   */
  function EngineReceipt(w: World, r: ReceiptRequest, requirements: Option<Requirements>, executor: Option<Metric>)
      : Result<Option<Receipt>, YieldError>
  {
    if executor.None? then BuildFor(w, r, "assignment", None)
    else
      var use := ArtifactUsed(executor.value, ShardOnlyRequired(requirements), ModelAtHand(r));
      if use.Err? then Err(UseRefused(use.error)) else BuildFor(w, r, use.value.kind, use.value.fallback)
  }

  lemma KindsPreferThemselves()
    ensures Preferred(Some("assignment")) == "assignment" && Preferred(Some("model")) == "model"
    ensures "assignment" != "model"
    ensures Strip("full_model") == "full_model"
  {
    assert Lower("assignment") == "assignment" && Lower("model") == "model";
  }

  /** The two kinds with the fallbacks the engine gives them. */
  predicate EngineUse(kind: string, fallback: Option<string>) {
    kind == "assignment" || (kind == "model" && fallback == Some("full_model"))
  }

  lemma EngineFallbackFits(r: ReceiptRequest, kind: string, fallback: Option<string>)
    requires EngineUse(kind, fallback)
    ensures FallbackFits(r, Some(kind), fallback)
  {
    KindsPreferThemselves();
  }

  /** With a preferred kind nothing is picked only where the bridge asks for no receipt. */
  lemma NoReceiptWhereNoneIsAsked(w: World, r: ReceiptRequest, kind: string, fallback: Option<string>)
    requires EngineUse(kind, fallback) && Build(w, r, Some(kind), true, fallback) == Ok(None)
    ensures Validate(w, r, None) == Ok(None)
  {
    if r.resolution.Some? { PreferredPicks(r, kind, fallback); }
  }

  lemma PreferredPicks(r: ReceiptRequest, kind: string, fallback: Option<string>)
    requires EngineUse(kind, fallback) && r.resolution.Some?
    ensures PickOf(r.resolution.value, Preferred(Some(kind))) != Ok(None)
  {
    KindsPreferThemselves();
  }

  lemma BuiltForEngineIsAccepted(w: World, r: ReceiptRequest, kind: string, fallback: Option<string>)
    requires EngineUse(kind, fallback) && Build(w, r, Some(kind), true, fallback).Ok?
    ensures var receipt := Build(w, r, Some(kind), true, fallback).value;
            Validate(w, r, receipt) == Ok(receipt) <==> (receipt.Some? ==> KindReadsBack(w, r, Some(kind)))
  {
    if Build(w, r, Some(kind), true, fallback).value.Some? {
      EngineFallbackFits(r, kind, fallback);
      BuiltReceiptIsAccepted(w, r, Some(kind), true, fallback);
    } else {
      NoReceiptWhereNoneIsAsked(w, r, kind, fallback);
    }
  }

  lemma UseIsEngineUse(m: Metric, required: bool, modelAvailable: bool)
    requires ArtifactUsed(m, required, modelAvailable).Ok?
    ensures var use := ArtifactUsed(m, required, modelAvailable).value;
            EngineUse(use.kind, use.fallback) && (use.kind == "model" ==> !required && modelAvailable)
  {
  }

  /** The kind of artifact the engine's receipt is for. */
  function KindUsed(r: ReceiptRequest, requirements: Option<Requirements>, executor: Option<Metric>): string {
    if executor.None? then "assignment"
    else
      var use := ArtifactUsed(executor.value, ShardOnlyRequired(requirements), ModelAtHand(r));
      if use.Ok? then use.value.kind else ""
  }

  /**
   Receipt agreement for the engine: whatever the request, its requirements and the executor's metrics, what the
   engine yields is accepted by the bridge for that request, exactly when it yields no receipt or the path of the
   used artifact reads back.
   */
  lemma EngineReceiptsAreAccepted(w: World, r: ReceiptRequest, requirements: Option<Requirements>,
                                  executor: Option<Metric>)
    requires EngineReceipt(w, r, requirements, executor).Ok?
    ensures var receipt := EngineReceipt(w, r, requirements, executor).value;
            Validate(w, r, receipt) == Ok(receipt) <==>
              (receipt.Some? ==> KindReadsBack(w, r, Some(KindUsed(r, requirements, executor))))
  {
    if executor.None? {
      BuiltForEngineIsAccepted(w, r, "assignment", None);
    } else {
      var use := ArtifactUsed(executor.value, ShardOnlyRequired(requirements), ModelAtHand(r)).value;
      UseIsEngineUse(executor.value, ShardOnlyRequired(requirements), ModelAtHand(r));
      BuiltForEngineIsAccepted(w, r, use.kind, use.fallback);
    }
  }

  // ---------------------------------------------------------------- receipts that name the model

  /** A receipt for this request could name the model: it is a process request with a usable model artifact. */
  predicate ModelUsable(r: ReceiptRequest) {
    IsProcess(r) && ModelAtHand(r) && Clean(r.resolution.value.model.value.source) != ""
        && Clean(r.resolution.value.model.value.localPath) != ""
  }

  predicate NamesModel(receipt: Result<Option<Receipt>, YieldError>) {
    receipt.Ok? && receipt.value.Some? && receipt.value.value.artifactKind == Text("model")
  }

  lemma AssignmentNamesAssignment(w: World, r: ReceiptRequest, fallback: Option<string>)
    ensures !NamesModel(BuildFor(w, r, "assignment", fallback))
  {
    KindsPreferThemselves();
  }

  lemma ModelNamesModel(w: World, r: ReceiptRequest)
    ensures NamesModel(BuildFor(w, r, "model", Some("full_model"))) <==> ModelUsable(r)
  {
    KindsPreferThemselves();
  }

  /** A binary's metrics that report full-model execution. */
  function FullModelMetrics(): Metric { Node([Entry(USED_FULL_MODEL, Scalar(Bool(true)))]) }

  lemma FullModelMetricsAreUnambiguous()
    ensures Unambiguous(FullModelMetrics()) && NestedBool(FullModelMetrics(), USED_FULL_MODEL) == Some(true)
  {
    var es := [Entry(USED_FULL_MODEL, Scalar(Bool(true)))];
    assert es[1..] == [];
    assert Distinct(es);
  }

  lemma FullModelIsUsed(m: Metric, required: bool, modelAvailable: bool)
    requires !required && modelAvailable && NestedBool(m, USED_FULL_MODEL) == Some(true)
    ensures ArtifactUsed(m, required, modelAvailable) == Ok(ArtifactUse("model", Some("full_model")))
  {
  }

  lemma NoModelReceipt(w: World, r: ReceiptRequest, requirements: Option<Requirements>, executor: Option<Metric>)
    requires ShardOnlyRequired(requirements) || !ModelUsable(r)
    ensures !NamesModel(EngineReceipt(w, r, requirements, executor))
  {
    if executor.None? {
      AssignmentNamesAssignment(w, r, None);
    } else {
      var use := ArtifactUsed(executor.value, ShardOnlyRequired(requirements), ModelAtHand(r));
      if use.Ok? {
        UseIsEngineUse(executor.value, ShardOnlyRequired(requirements), ModelAtHand(r));
        if use.value.kind == "model" {
          ModelNamesModel(w, r);
        } else {
          AssignmentNamesAssignment(w, r, use.value.fallback);
        }
      }
    }
  }

  /** The engine takes the flag for unset although the bridge took it for set. */
  predicate Lax(flag: Value) { Truthy(flag) && !SaysYes(flag) }

  /** Both flags are lax and the request has a usable model artifact. */
  predicate ModelInReach(r: ReceiptRequest, requirements: Option<Requirements>)
    requires requirements.Some?
  {
    Lax(requirements.value.shardOnly) && Lax(requirements.value.forbidFallback) && ModelUsable(r)
  }

  /** The engine's receipt when the binary reports these metrics and the three processes above wrap them. */
  function StackReceipt(w: World, r: ReceiptRequest, requirements: Option<Requirements>, binary: Metric,
                        x: ExecutorFacts, y: HostFacts, z: EngineFacts): Result<Option<Receipt>, YieldError>
  {
    EngineReceipt(w, r, requirements, Some(EngineMetrics(binary, x, y, z)))
  }

  /**
   Behind the bridge, whatever executor, host and engine put around them, no metrics of a binary can make the engine
   yield a receipt of kind "model", exactly when not both flags are lax or the request has no usable model artifact;
   and then no metrics of any shape can.
   */
  lemma ModelReceiptOutOfReach(w: World, r: ReceiptRequest, requirements: Option<Requirements>, x: ExecutorFacts,
                               y: HostFacts, z: EngineFacts)
    requires BridgeAccepts(requirements)
    ensures (forall binary: Metric :: binary.Node? ==> !NamesModel(StackReceipt(w, r, requirements, binary, x, y, z)))
              <==> !ModelInReach(r, requirements)
    ensures !ModelInReach(r, requirements) ==>
              forall executor :: !NamesModel(EngineReceipt(w, r, requirements, executor))
  {
    if !ModelInReach(r, requirements) {
      forall executor ensures !NamesModel(EngineReceipt(w, r, requirements, executor)) {
        NoModelReceipt(w, r, requirements, executor);
      }
    } else {
      FullModelReachesEngine(w, r, requirements, x, y, z);
      assert FullModelMetrics().Node?;
    }
  }

  lemma FullModelReachesEngine(w: World, r: ReceiptRequest, requirements: Option<Requirements>, x: ExecutorFacts,
                               y: HostFacts, z: EngineFacts)
    requires !ShardOnlyRequired(requirements) && ModelUsable(r)
    ensures NamesModel(StackReceipt(w, r, requirements, FullModelMetrics(), x, y, z))
  {
    FullModelMetricsAreUnambiguous();
    StackKeepsProof(FullModelMetrics(), x, y, z);
    assert IsFlagKey(USED_FULL_MODEL);
    FullModelIsUsed(EngineMetrics(FullModelMetrics(), x, y, z), ShardOnlyRequired(requirements), ModelAtHand(r));
    ModelNamesModel(w, r);
  }

  /** Requirements whose flags are booleans, as the bridge's own producer writes them, always bind the engine. */
  lemma BooleanFlagsBind(w: World, r: ReceiptRequest, requirements: Option<Requirements>, executor: Option<Metric>)
    requires BridgeAccepts(requirements)
    requires (requirements.value.shardOnly.Bool? || requirements.value.forbidFallback.Bool?)
    ensures !NamesModel(EngineReceipt(w, r, requirements, executor))
  {
    NoModelReceipt(w, r, requirements, executor);
  }
}
