/**
 Real-state manifests and the executor host's hand-off rules between pipeline stages, and what they
 give over whole pipelines: tiling of the model's layers, and at most one wrap in a decode chain.
 */
module Handoff {
  import opened PyValue
  import opened ArtifactContract

  type Files = map<string, Bytes>

  datatype StateKind = Activation | Decode

  datatype StateFile = NoStateFile | StateFile(path: Value, sha256Hex: Value, sizeBytes: Value)

  /** The metadata entries that later stages read back. */
  datatype Metadata = NoMetadata | MetadataNotMapping | Metadata(prefillDigest: Value, shardSha: Value,
                                                                 contextSource: Value)

  /** A real-state manifest as a parsed document. */
  datatype Manifest = Manifest(
    schemaVersion: Value, abi: Value, stateKind: Value, producedByAction: Value, modelId: Value, sessionId: Value,
    layerStart: Value, layerEnd: Value, tokenStart: Value, tokenEnd: Value, stateFormat: Value,
    stateFile: StateFile, metadata: Metadata)

  /** A host request, with every field already looked up in the request, its shardSpec and its frame. */
  datatype HostRequest = HostRequest(
    action: string, frameKind: string, modelId: Option<string>, sessionId: Option<string>,
    layerStart: Option<int>, layerEnd: Option<int>, tokenStart: Option<int>, tokenEnd: Option<int>,
    stateFilesDir: string, externalRoots: seq<string>)

  /** Path placement in a workspace: `_workspace_path` and `_path_is_within`. */
  datatype Workspace = Workspace(place: (string, string) -> string, within: (string, string) -> bool)

  datatype StateRef = StateRef(path: string, sha: string, size: nat)

  datatype StateError =
    | SchemaInvalid | AbiUnsupported | KindMismatch | ActionMissing | ActionMismatch | ModelIdMismatch
    | SessionIdMismatch
    | LayerStartMismatch | LayerEndMismatch | TokenStartMismatch | TokenEndMismatch | FormatUnsupported
    | MetadataInvalid
    | StateFileMissing | StateFileEscapes | StateFileUnavailable | StateFileSizeMismatch | StateFileHashMismatch
    | ProducerEndMissing | ProducerStartMissing | ProducerEndNotHere | ProducerRangeInvalid

  const STATE_ABI := "cai-llama-cpp-real-state-payload-v1"
  const PREFILL := "process_prefill"
  const DECODE := "process_decode"

  function KindText(k: StateKind): string { if k.Activation? then "activation_state" else "decode_state" }

  function ParseKind(v: Value): Option<StateKind> {
    var text := Lower(Clean(v));
    if text == "activation_state" then Some(Activation) else if text == "decode_state" then Some(Decode) else None
  }

  // ---------------------------------------------------------------- the real-state check

  function ValidateStateFile(w: World, ws: Workspace, files: Files, f: StateFile, r: HostRequest,
                             external: bool): Result<StateRef, StateError> {
    if f.NoStateFile? || Clean(f.path) == "" then Err(StateFileMissing)
    else
      var path := ws.place(Clean(f.path), r.stateFilesDir);
      if !ws.within(path, r.stateFilesDir)
          && !(external && exists root :: root in r.externalRoots && ws.within(path, root)) then Err(StateFileEscapes)
      else if path !in files then Err(StateFileUnavailable)
      else
        var size, sha := OptInt(f.sizeBytes), Lower(Clean(f.sha256Hex));
        if size.None? || size.value <= 0 || size.value != |files[path]| then Err(StateFileSizeMismatch)
        else if sha == "" || sha != w.sha256(files[path]) then Err(StateFileHashMismatch)
        else Ok(StateRef(path, sha, size.value))
  }

  /** The file lies in the request's state directory or, where that is allowed, under an external root. */
  ghost predicate Allowed(ws: Workspace, path: string, r: HostRequest, external: bool) {
    ws.within(path, r.stateFilesDir) || (external && exists root :: root in r.externalRoots && ws.within(path, root))
  }

  /** An accepted state file lies where it may, is not empty and has exactly the size and the hash that are stated. */
  lemma StateFileIsExact(w: World, ws: Workspace, files: Files, f: StateFile, r: HostRequest, external: bool,
                         x: StateRef)
    ensures ValidateStateFile(w, ws, files, f, r, external) == Ok(x) <==>
              && f.StateFile? && Clean(f.path) != "" && x.path == ws.place(Clean(f.path), r.stateFilesDir)
              && Allowed(ws, x.path, r, external) && x.path in files && files[x.path] != []
              && x.size == |files[x.path]| && OptInt(f.sizeBytes) == Some(x.size)
              && x.sha == w.sha256(files[x.path]) && Lower(Clean(f.sha256Hex)) == x.sha
  {
  }

  predicate BoundMatches(actual: Value, expected: Option<int>) { expected.Some? ==> OptInt(actual) == expected }

  /** The checks that read only the manifest and the request; `formats` names the format of each kind. */
  function ManifestError(formats: StateKind -> string, m: Manifest, r: HostRequest, kind: StateKind, matchAction: bool,
                         matchBounds: bool): Option<StateError> {
    if OptInt(m.schemaVersion) != Some(1) then Some(SchemaInvalid)
    else if Clean(m.abi) != STATE_ABI then Some(AbiUnsupported)
    else if ParseKind(m.stateKind) != Some(kind) then Some(KindMismatch)
    else if Clean(m.producedByAction) == "" then Some(ActionMissing)
    else if matchAction && Clean(m.producedByAction) != r.action then Some(ActionMismatch)
    else if r.modelId.Some? && Clean(m.modelId) != r.modelId.value then Some(ModelIdMismatch)
    else if r.sessionId.Some? && Clean(m.sessionId) != r.sessionId.value then Some(SessionIdMismatch)
    else if matchBounds && !BoundMatches(m.layerStart, r.layerStart) then Some(LayerStartMismatch)
    else if matchBounds && !BoundMatches(m.layerEnd, r.layerEnd) then Some(LayerEndMismatch)
    else if matchBounds && !BoundMatches(m.tokenStart, r.tokenStart) then Some(TokenStartMismatch)
    else if matchBounds && !BoundMatches(m.tokenEnd, r.tokenEnd) then Some(TokenEndMismatch)
    else if Clean(m.stateFormat) != formats(kind) then Some(FormatUnsupported)
    else if m.metadata.MetadataNotMapping? then Some(MetadataInvalid)
    else None
  }

  function ValidateRealState(w: World, ws: Workspace, formats: StateKind -> string, files: Files, m: Manifest,
                             r: HostRequest, kind: StateKind, matchAction: bool, matchBounds: bool,
                             external: bool): Result<StateRef, StateError>
  {
    var error := ManifestError(formats, m, r, kind, matchAction, matchBounds);
    if error.Some? then Err(error.value) else ValidateStateFile(w, ws, files, m.stateFile, r, external)
  }

  /** The manifest is one of this kind and format, for the request's model and session where it states them. */
  predicate ManifestFits(formats: StateKind -> string, m: Manifest, r: HostRequest, kind: StateKind) {
    && OptInt(m.schemaVersion) == Some(1) && Clean(m.abi) == STATE_ABI && ParseKind(m.stateKind) == Some(kind)
    && Clean(m.producedByAction) != "" && Clean(m.stateFormat) == formats(kind) && !m.metadata.MetadataNotMapping?
    && (r.modelId.Some? ==> Some(Clean(m.modelId)) == r.modelId)
    && (r.sessionId.Some? ==> Some(Clean(m.sessionId)) == r.sessionId)
  }

  /** The manifest states the layers and tokens that the request states. */
  predicate BoundsFit(m: Manifest, r: HostRequest) {
    && (r.layerStart.Some? ==> OptInt(m.layerStart) == r.layerStart)
    && (r.layerEnd.Some? ==> OptInt(m.layerEnd) == r.layerEnd)
    && (r.tokenStart.Some? ==> OptInt(m.tokenStart) == r.tokenStart)
    && (r.tokenEnd.Some? ==> OptInt(m.tokenEnd) == r.tokenEnd)
  }

  lemma ManifestCheckIsExact(formats: StateKind -> string, m: Manifest, r: HostRequest, kind: StateKind,
                             matchAction: bool, matchBounds: bool)
    ensures ManifestError(formats, m, r, kind, matchAction, matchBounds).None? <==>
              && ManifestFits(formats, m, r, kind) && (matchAction ==> Clean(m.producedByAction) == r.action)
              && (matchBounds ==> BoundsFit(m, r))
  {
    if ManifestError(formats, m, r, kind, matchAction, matchBounds).None? {
      PassedManifestFits(formats, m, r, kind, matchAction, matchBounds);
    } else if (matchAction ==> Clean(m.producedByAction) == r.action) && (matchBounds ==> BoundsFit(m, r)) {
      RefusedManifestFails(formats, m, r, kind, matchAction, matchBounds);
    }
  }

  lemma PassedManifestFits(formats: StateKind -> string, m: Manifest, r: HostRequest, kind: StateKind,
                           matchAction: bool, matchBounds: bool)
    requires ManifestError(formats, m, r, kind, matchAction, matchBounds).None?
    ensures ManifestFits(formats, m, r, kind) && (matchAction ==> Clean(m.producedByAction) == r.action)
    ensures matchBounds ==> BoundsFit(m, r)
  {
  }

  lemma RefusedManifestFails(formats: StateKind -> string, m: Manifest, r: HostRequest, kind: StateKind,
                             matchAction: bool, matchBounds: bool)
    requires ManifestError(formats, m, r, kind, matchAction, matchBounds).Some?
    requires (matchAction ==> Clean(m.producedByAction) == r.action) && (matchBounds ==> BoundsFit(m, r))
    ensures !ManifestFits(formats, m, r, kind)
  {
  }

  // ---------------------------------------------------------------- the hand-off check

  function ExpectedInputKind(r: HostRequest): StateKind {
    if r.frameKind == "activation" then Activation
    else if r.frameKind == "decode" then Decode
    else if r.action == DECODE then Decode
    else Activation
  }

  function HandoffError(m: Manifest, r: HostRequest): Option<StateError> {
    var kind, start, end := ParseKind(m.stateKind), OptInt(m.layerStart), OptInt(m.layerEnd);
    if kind == Some(Activation) then
      if r.layerStart.Some? && end.None? then Some(ProducerEndMissing)
      else if start.None? then Some(ProducerStartMissing)
      else if r.layerStart.Some? && end != r.layerStart then Some(ProducerEndNotHere)
      else if end.Some? && end.value <= start.value then Some(ProducerRangeInvalid)
      else None
    else if kind == Some(Decode) then
      if start.None? then Some(ProducerStartMissing)
      else if end.None? then Some(ProducerEndMissing)
      else if end.value <= start.value then Some(ProducerRangeInvalid)
      else if (r.layerStart.None? || start == r.layerStart) && (r.layerEnd.None? || end == r.layerEnd) then None
      else if r.layerStart.Some? && end == r.layerStart then None
      else if Clean(m.producedByAction) == PREFILL && r.action == DECODE && r.layerStart == Some(0)
              && r.layerEnd.Some? && start.value >= r.layerEnd.value then None
      else if r.layerStart.Some? && start != r.layerStart then Some(LayerStartMismatch)
      else if r.layerEnd.Some? && end != r.layerEnd then Some(LayerEndMismatch)
      else None
    else None
  }

  predicate Proper(m: Manifest) {
    OptInt(m.layerStart).Some? && OptInt(m.layerEnd).Some? && OptInt(m.layerStart).value < OptInt(m.layerEnd).value
  }

  /** A decode state may stay on its layers, go on to the layers right behind, or wrap from prefill to layer 0. */
  predicate DecodeFits(m: Manifest, r: HostRequest) {
    && Proper(m)
    && (|| (BoundMatches(m.layerStart, r.layerStart) && BoundMatches(m.layerEnd, r.layerEnd))
        || r.layerStart == OptInt(m.layerEnd)
        || (Clean(m.producedByAction) == PREFILL && r.action == DECODE
            && r.layerStart == Some(0) && r.layerEnd.Some? && r.layerEnd.value <= OptInt(m.layerStart).value))
  }

  /** An activation state ends where the request starts, if that is stated. */
  predicate ActivationFits(m: Manifest, r: HostRequest) {
    && OptInt(m.layerStart).Some? && (OptInt(m.layerEnd).Some? ==> Proper(m))
    && (r.layerStart.Some? ==> OptInt(m.layerEnd) == r.layerStart)
  }

  /** The hand-off check of any manifest against any request, stated bounds or not. */
  lemma HandoffIsExact(m: Manifest, r: HostRequest)
    ensures HandoffError(m, r).None? <==>
              && (ParseKind(m.stateKind) == Some(Decode) ==> DecodeFits(m, r))
              && (ParseKind(m.stateKind) == Some(Activation) ==> ActivationFits(m, r))
  {
  }

  /** An engine output is passed on: the manifest matches its own request. */
  predicate OutputAccepted(w: World, ws: Workspace, formats: StateKind -> string, files: Files, m: Manifest,
                           r: HostRequest, kind: StateKind) {
    ValidateRealState(w, ws, formats, files, m, r, kind, true, true, false).Ok?
  }

  /** An input state is taken in: it is of the expected kind and its producer's range fits. */
  predicate InputAccepted(w: World, ws: Workspace, formats: StateKind -> string, files: Files, m: Manifest,
                          r: HostRequest) {
    && ValidateRealState(w, ws, formats, files, m, r, ExpectedInputKind(r), false, false, true).Ok?
    && HandoffError(m, r) == None
  }

  /** The state file is intact in its own workspace or, where that is allowed, under an external root. */
  ghost predicate FileFits(w: World, ws: Workspace, files: Files, f: StateFile, r: HostRequest, external: bool) {
    && f.StateFile? && Clean(f.path) != ""
    && var path := ws.place(Clean(f.path), r.stateFilesDir);
       && Allowed(ws, path, r, external) && path in files && files[path] != []
       && OptInt(f.sizeBytes) == Some(|files[path]|) && Lower(Clean(f.sha256Hex)) == w.sha256(files[path])
  }

  lemma FileCheckIsExact(w: World, ws: Workspace, files: Files, f: StateFile, r: HostRequest, external: bool)
    ensures ValidateStateFile(w, ws, files, f, r, external).Ok? <==> FileFits(w, ws, files, f, r, external)
  {
    var v := ValidateStateFile(w, ws, files, f, r, external);
    if v.Ok? { StateFileIsExact(w, ws, files, f, r, external, v.value); }
    if FileFits(w, ws, files, f, r, external) {
      var path := ws.place(Clean(f.path), r.stateFilesDir);
      StateFileIsExact(w, ws, files, f, r, external, StateRef(path, w.sha256(files[path]), |files[path]|));
    }
  }

  /** Outputs must match their own request in every stated bound and stay in its directory. */
  lemma OutputCheckIsExact(w: World, ws: Workspace, formats: StateKind -> string, files: Files, m: Manifest,
                           r: HostRequest, kind: StateKind)
    ensures OutputAccepted(w, ws, formats, files, m, r, kind) <==>
              && ManifestFits(formats, m, r, kind) && Clean(m.producedByAction) == r.action && BoundsFit(m, r)
              && FileFits(w, ws, files, m.stateFile, r, false)
  {
    ManifestCheckIsExact(formats, m, r, kind, true, true);
    FileCheckIsExact(w, ws, files, m.stateFile, r, false);
  }

  /** The kind of state a request expects: what its frame says, else what its action needs. */
  lemma ExpectedKindIsExact(r: HostRequest)
    ensures ExpectedInputKind(r) == Decode <==>
              r.frameKind == "decode" || (r.frameKind != "activation" && r.action == DECODE)
  {
  }

  /** Inputs may lie under an external root and must be of the expected kind and from fitting layers. */
  lemma InputCheckIsExact(w: World, ws: Workspace, formats: StateKind -> string, files: Files, m: Manifest,
                          r: HostRequest)
    ensures InputAccepted(w, ws, formats, files, m, r) <==>
              && ManifestFits(formats, m, r, ExpectedInputKind(r)) && FileFits(w, ws, files, m.stateFile, r, true)
              && (if ExpectedInputKind(r) == Decode then DecodeFits(m, r) else ActivationFits(m, r))
  {
    ManifestCheckIsExact(formats, m, r, ExpectedInputKind(r), false, false);
    FileCheckIsExact(w, ws, files, m.stateFile, r, true);
    HandoffIsExact(m, r);
  }

  // ---------------------------------------------------------------- pipelines

  /**
   One stage of a pipeline: its request, the state it put out, its assignment artifact, and the files as they
   were when the host checked its input and artifact (`before`) and when it checked its output (`after`).  The
   files may change in any way between checks, so later stages may overwrite the state files of earlier ones.
   */
  datatype Stage = Stage(request: HostRequest, output: Manifest, artifact: Artifact, before: Files, after: Files)

  predicate BoundsStated(s: Stage) { s.request.layerStart.Some? && s.request.layerEnd.Some? }

  function Start(s: Stage): int
    requires BoundsStated(s)
  {
    s.request.layerStart.value
  }

  function End(s: Stage): int
    requires BoundsStated(s)
  {
    s.request.layerEnd.value
  }

  ghost predicate AllStated(stages: seq<Stage>) {
    forall i :: 0 <= i < |stages| ==> BoundsStated(stages[i])
  }

  /** Every output but the last is a state of the given kind that its own stage and the next one accept. */
  ghost predicate AcceptedPipeline(w: World, ws: Workspace, formats: StateKind -> string, stages: seq<Stage>,
                                   kind: StateKind) {
    && (forall i :: 0 <= i < |stages| - 1 ==> PutsOut(w, ws, formats, stages[i], kind))
    && (forall i :: 0 < i < |stages| ==> TakesIn(w, ws, formats, stages[i - 1].output, stages[i]))
  }

  predicate PutsOut(w: World, ws: Workspace, formats: StateKind -> string, s: Stage, kind: StateKind) {
    OutputAccepted(w, ws, formats, s.after, s.output, s.request, kind)
  }

  predicate TakesIn(w: World, ws: Workspace, formats: StateKind -> string, m: Manifest, s: Stage) {
    InputAccepted(w, ws, formats, s.before, m, s.request)
  }

  /** The host's check of a stage's artifact: present, well accounted, for these layers, covering them. */
  predicate ArtifactAccepted(w: World, files: Files, r: HostRequest, a: Artifact) {
    var path, start, end := Clean(a.localPath), OptInt(a.layerStart), OptInt(a.layerEnd);
    && path != "" && w.resolve(path).Some? && w.resolve(path).value in files
    && ResolveCoverage(a).Ok? && StrictRanges(a).Ok?
    && (r.layerStart.Some? && start.Some? ==> start == r.layerStart)
    && (r.layerEnd.Some? && end.Some? ==> end == r.layerEnd)
    && LayerCoverage(a, if r.layerStart.Some? then r.layerStart else start,
                     if r.layerEnd.Some? then r.layerEnd else end).Ok?
  }

  /** The bound that counts: the request's, else the artifact's own. */
  function Effective(requested: Option<int>, own: Option<int>): Option<int> {
    if requested.Some? then requested else own
  }

  /**
   The host takes an artifact exactly when its file is there, its coverage and ranges are sound, its own bounds do not
   contradict the request's, and its chunks cover the layers that count.
   */
  lemma ArtifactCheckIsExact(w: World, files: Files, r: HostRequest, a: Artifact)
    ensures var start := Effective(r.layerStart, OptInt(a.layerStart));
            var end := Effective(r.layerEnd, OptInt(a.layerEnd));
            ArtifactAccepted(w, files, r, a) <==>
              && Clean(a.localPath) != "" && w.resolve(Clean(a.localPath)).Some?
              && w.resolve(Clean(a.localPath)).value in files
              && ResolveCoverage(a).Ok? && StrictRanges(a).Ok?
              && (OptInt(a.layerStart).Some? ==> start == OptInt(a.layerStart))
              && (OptInt(a.layerEnd).Some? ==> end == OptInt(a.layerEnd))
              && (start.Some? && end.Some? ==>
                    0 <= start.value < end.value && AllCovered(StrictRanges(a).value, start.value, end.value))
  {
    LayerCoverageIsExact(a, Effective(r.layerStart, OptInt(a.layerStart)), Effective(r.layerEnd, OptInt(a.layerEnd)));
  }

  predicate HasArtifact(w: World, s: Stage) { ArtifactAccepted(w, s.before, s.request, s.artifact) }

  predicate Runs(s: Stage, layer: int)
    requires BoundsStated(s)
  {
    Start(s) <= layer < End(s)
  }

  /** Each stage but the last has a proper range that ends where the next one starts. */
  ghost predicate Adjacent(stages: seq<Stage>)
    requires AllStated(stages)
  {
    forall i :: 0 < i < |stages| ==> Meets(stages[i - 1], stages[i])
  }

  predicate Meets(s: Stage, t: Stage)
    requires BoundsStated(s) && BoundsStated(t)
  {
    Start(s) < End(s) == Start(t)
  }

  lemma ActivationHop(m: Manifest, r: HostRequest, next: HostRequest, formats: StateKind -> string)
    requires r.layerStart.Some? && r.layerEnd.Some? && next.layerStart.Some?
    requires ManifestError(formats, m, r, Activation, true, true) == None && HandoffError(m, next) == None
    ensures r.layerStart.value < r.layerEnd.value == next.layerStart.value
  {
  }

  /** Accepted activation hand-offs make neighbours adjacent. */
  lemma ActivationStagesAreAdjacent(w: World, ws: Workspace, formats: StateKind -> string, stages: seq<Stage>)
    requires AllStated(stages) && AcceptedPipeline(w, ws, formats, stages, Activation)
    ensures Adjacent(stages)
  {
    forall i | 0 < i < |stages| ensures Meets(stages[i - 1], stages[i]) {
      assert PutsOut(w, ws, formats, stages[i - 1], Activation);
      assert TakesIn(w, ws, formats, stages[i - 1].output, stages[i]);
      ActivationHop(stages[i - 1].output, stages[i - 1].request, stages[i].request, formats);
    }
  }

  lemma {:induction false} StagesAreOrdered(stages: seq<Stage>, i: nat, j: nat)
    requires AllStated(stages) && Adjacent(stages) && i < j < |stages|
    ensures Start(stages[i]) < End(stages[i]) <= Start(stages[j])
    decreases j
  {
    assert Meets(stages[j - 1], stages[j]);
    if i + 1 < j { StagesAreOrdered(stages, i, j - 1); }
  }

  lemma {:induction false} SomeStageRuns(stages: seq<Stage>, n: nat, layer: int) returns (i: nat)
    requires AllStated(stages) && Adjacent(stages) && n < |stages|
    requires Start(stages[0]) <= layer < End(stages[n])
    ensures i <= n && Runs(stages[i], layer)
    decreases n
  {
    if Start(stages[n]) <= layer {
      i := n;
    } else {
      assert Meets(stages[n - 1], stages[n]);
      i := SomeStageRuns(stages, n - 1, layer);
    }
  }

  /**
   Pipeline tiling: for any number of stages, every layer from the first start to the last end is run
   by exactly one stage, and is covered by a chunk of that stage's own artifact.
   */
  lemma PipelineTilesTheModel(w: World, ws: Workspace, formats: StateKind -> string, stages: seq<Stage>, layer: int)
    requires stages != [] && AllStated(stages) && AcceptedPipeline(w, ws, formats, stages, Activation)
    requires forall i :: 0 <= i < |stages| ==> HasArtifact(w, stages[i])
    ensures (exists i :: 0 <= i < |stages| && Runs(stages[i], layer)) <==>
              Start(stages[0]) <= layer < End(stages[|stages| - 1])
    ensures forall i, j :: 0 <= i < |stages| && 0 <= j < |stages| ==>
              Runs(stages[i], layer) && Runs(stages[j], layer) ==> i == j
    ensures forall i :: 0 <= i < |stages| && Runs(stages[i], layer) ==>
              StrictRanges(stages[i].artifact).Ok? && CoveredAt(StrictRanges(stages[i].artifact).value, layer)
  {
    var last := |stages| - 1;
    ActivationStagesAreAdjacent(w, ws, formats, stages);
    assert HasArtifact(w, stages[last]);
    AdjacentStagesTile(stages, layer);
    forall i | 0 <= i < |stages| && Runs(stages[i], layer)
      ensures StrictRanges(stages[i].artifact).Ok? && CoveredAt(StrictRanges(stages[i].artifact).value, layer)
    {
      assert HasArtifact(w, stages[i]);
      StageCoversItsLayers(w, stages[i], layer);
    }
  }

  lemma StageCoversItsLayers(w: World, s: Stage, layer: int)
    requires BoundsStated(s) && HasArtifact(w, s) && Runs(s, layer)
    ensures StrictRanges(s.artifact).Ok? && CoveredAt(StrictRanges(s.artifact).value, layer)
  {
    LayerVerdictIsExact(StrictRanges(s.artifact).value, Start(s), End(s));
  }

  lemma AdjacentStagesTile(stages: seq<Stage>, layer: int)
    requires stages != [] && AllStated(stages) && Adjacent(stages)
    requires Start(stages[|stages| - 1]) < End(stages[|stages| - 1])
    ensures (exists i :: 0 <= i < |stages| && Runs(stages[i], layer)) <==>
              Start(stages[0]) <= layer < End(stages[|stages| - 1])
    ensures forall i, j :: 0 <= i < |stages| && 0 <= j < |stages| ==>
              Runs(stages[i], layer) && Runs(stages[j], layer) ==> i == j
  {
    var last := |stages| - 1;
    forall i, j | 0 <= i < j < |stages| ensures Start(stages[i]) < End(stages[i]) <= Start(stages[j]) {
      StagesAreOrdered(stages, i, j);
    }
    if Start(stages[0]) <= layer < End(stages[last]) {
      var i := SomeStageRuns(stages, last, layer);
    }
  }

  // ---------------------------------------------------------------- generation-probe split

  function ProbeSplit(totalLayers: int): int { Max(1, Min(totalLayers - 1, totalLayers / 2)) }

  /** The stages are the probe's two shards `[0, split)` and `[split, total)`. */
  predicate ProbeStages(s: Stage, t: Stage, totalLayers: int) {
    && s.request.layerStart == Some(0) && s.request.layerEnd == Some(ProbeSplit(totalLayers))
    && t.request.layerStart == Some(ProbeSplit(totalLayers)) && t.request.layerEnd == Some(totalLayers)
  }

  /**
   For two layers or more the probe splits in the middle, its shards are both non-empty, the host accepts the
   hand-off between them, and every layer of the model is run by exactly one of the two.
   */
  lemma ProbeSplitIsAChain(totalLayers: int, s: Stage, t: Stage, layer: int)
    requires totalLayers >= 2 && ProbeStages(s, t, totalLayers)
    requires ParseKind(s.output.stateKind) == Some(Activation)
    requires s.output.layerStart == FromInt(s.request.layerStart) && s.output.layerEnd == FromInt(s.request.layerEnd)
    ensures 0 < ProbeSplit(totalLayers) == totalLayers / 2 < totalLayers
    ensures HandoffError(s.output, t.request) == None
    ensures 0 <= layer < totalLayers <==> Runs(s, layer) != Runs(t, layer)
    ensures !(Runs(s, layer) && Runs(t, layer))
  {
  }

  // ---------------------------------------------------------------- decode chains

  /** All prefill stages come before all decode stages. */
  ghost predicate PrefillFirst(stages: seq<Stage>) {
    && (forall i :: 0 <= i < |stages| ==> stages[i].request.action == PREFILL || stages[i].request.action == DECODE)
    && (forall i, j :: 0 <= i < j < |stages| ==>
          stages[i].request.action == DECODE ==> stages[j].request.action == DECODE)
  }

  predicate Wraps(s: Stage, t: Stage)
    requires BoundsStated(s) && BoundsStated(t)
  {
    Start(t) < Start(s)
  }

  /** A decode hand-off stays, moves on to the adjacent range, or wraps from prefill to layer 0. */
  ghost predicate Linked(s: Stage, t: Stage)
    requires BoundsStated(s) && BoundsStated(t)
  {
    && Start(s) < End(s)
    && (|| (Start(t) == Start(s) && End(t) == End(s))
        || Start(t) == End(s)
        || (s.request.action == PREFILL && t.request.action == DECODE && Start(t) == 0 && End(t) <= Start(s)))
  }

  ghost predicate DecodeLinked(stages: seq<Stage>)
    requires AllStated(stages)
  {
    forall i :: 0 < i < |stages| ==> Linked(stages[i - 1], stages[i])
  }

  lemma DecodeHop(s: Stage, t: Stage, formats: StateKind -> string)
    requires BoundsStated(s) && BoundsStated(t)
    requires ManifestError(formats, s.output, s.request, Decode, true, true) == None
    requires HandoffError(s.output, t.request) == None
    ensures Linked(s, t)
  {
  }

  /** Accepted decode hand-offs link neighbours. */
  lemma DecodeStagesAreLinked(w: World, ws: Workspace, formats: StateKind -> string, stages: seq<Stage>)
    requires AllStated(stages) && AcceptedPipeline(w, ws, formats, stages, Decode)
    ensures DecodeLinked(stages)
  {
    forall i | 0 < i < |stages| ensures Linked(stages[i - 1], stages[i]) {
      assert PutsOut(w, ws, formats, stages[i - 1], Decode);
      assert TakesIn(w, ws, formats, stages[i - 1].output, stages[i]);
      DecodeHop(stages[i - 1], stages[i], formats);
    }
  }

  lemma ActionsDiffer()
    ensures PREFILL != DECODE
  {
    assert |PREFILL| != |DECODE|;
  }

  /**
   Decode chains of any length: the layer start never decreases except in at most one wrap, which goes
   to layer 0, from a prefill to a decode stage, into a range ending at or before the producer's start.
   */
  lemma DecodeChainWrapsAtMostOnce(w: World, ws: Workspace, formats: StateKind -> string, stages: seq<Stage>, i: nat,
                                   j: nat)
    requires AllStated(stages) && AcceptedPipeline(w, ws, formats, stages, Decode) && PrefillFirst(stages)
    requires 0 < i < |stages| && 0 < j < |stages| && Wraps(stages[i - 1], stages[i])
    ensures stages[i - 1].request.action == PREFILL && stages[i].request.action == DECODE
    ensures Start(stages[i]) == 0 && End(stages[i]) <= Start(stages[i - 1])
    ensures Wraps(stages[j - 1], stages[j]) ==> i == j
  {
    DecodeStagesAreLinked(w, ws, formats, stages);
    WrapIsUnique(stages, i, j);
  }

  lemma WrapIsUnique(stages: seq<Stage>, i: nat, j: nat)
    requires AllStated(stages) && DecodeLinked(stages) && PrefillFirst(stages)
    requires 0 < i < |stages| && 0 < j < |stages| && Wraps(stages[i - 1], stages[i])
    ensures stages[i - 1].request.action == PREFILL && stages[i].request.action == DECODE
    ensures Start(stages[i]) == 0 && End(stages[i]) <= Start(stages[i - 1])
    ensures Wraps(stages[j - 1], stages[j]) ==> i == j
  {
    ActionsDiffer();
    assert Linked(stages[i - 1], stages[i]) && Linked(stages[j - 1], stages[j]);
  }

  /** Between two stages of the same phase the start is monotone over any distance. */
  lemma {:induction false} DecodeStartsAreMonotone(stages: seq<Stage>, i: nat, j: nat)
    requires AllStated(stages) && DecodeLinked(stages) && PrefillFirst(stages)
    requires i <= j < |stages| && stages[i].request.action == stages[j].request.action
    ensures Start(stages[i]) <= Start(stages[j])
    decreases j
  {
    if i < j {
      ActionsDiffer();
      assert stages[j - 1].request.action == stages[j].request.action;
      DecodeStartsAreMonotone(stages, i, j - 1);
      assert Linked(stages[j - 1], stages[j]);
    }
  }

  // ---------------------------------------------------------------- which chains are accepted

  /** The next stage finds the state it expects: its kind, its model and session where stated, and an intact file. */
  ghost predicate Receives(w: World, ws: Workspace, m: Manifest, s: Stage, kind: StateKind) {
    && ExpectedInputKind(s.request) == kind
    && (s.request.modelId.Some? ==> Clean(m.modelId) == s.request.modelId.value)
    && (s.request.sessionId.Some? ==> Clean(m.sessionId) == s.request.sessionId.value)
    && ValidateStateFile(w, ws, s.before, m.stateFile, s.request, true).Ok?
  }

  /** Every output but the last is put out, and the next stage finds it. */
  ghost predicate Delivered(w: World, ws: Workspace, formats: StateKind -> string, stages: seq<Stage>,
                            kind: StateKind) {
    && (forall i :: 0 <= i < |stages| - 1 ==> PutsOut(w, ws, formats, stages[i], kind))
    && (forall i :: 0 < i < |stages| ==> Receives(w, ws, stages[i - 1].output, stages[i], kind))
  }

  /** A state that was put out and is found is taken in exactly when the hand-off fits. */
  lemma TakenInIffFits(w: World, ws: Workspace, formats: StateKind -> string, s: Stage, t: Stage, kind: StateKind)
    requires PutsOut(w, ws, formats, s, kind) && Receives(w, ws, s.output, t, kind)
    ensures TakesIn(w, ws, formats, s.output, t) <==> HandoffError(s.output, t.request).None?
    ensures ParseKind(s.output.stateKind) == Some(kind)
  {
  }

  /** The states a stage puts out carry its own action and bounds. */
  lemma PutOutBounds(w: World, ws: Workspace, formats: StateKind -> string, s: Stage, kind: StateKind)
    requires BoundsStated(s) && PutsOut(w, ws, formats, s, kind)
    ensures OptInt(s.output.layerStart) == Some(Start(s)) && OptInt(s.output.layerEnd) == Some(End(s))
    ensures Clean(s.output.producedByAction) == s.request.action
  {
  }

  lemma DecodeHopIsExact(w: World, ws: Workspace, formats: StateKind -> string, s: Stage, t: Stage)
    requires BoundsStated(s) && BoundsStated(t)
    requires PutsOut(w, ws, formats, s, Decode) && Receives(w, ws, s.output, t, Decode)
    ensures TakesIn(w, ws, formats, s.output, t) <==> Linked(s, t)
  {
    TakenInIffFits(w, ws, formats, s, t, Decode);
    PutOutBounds(w, ws, formats, s, Decode);
    HandoffIsExact(s.output, t.request);
  }

  lemma ActivationHopIsExact(w: World, ws: Workspace, formats: StateKind -> string, s: Stage, t: Stage)
    requires BoundsStated(s) && BoundsStated(t)
    requires PutsOut(w, ws, formats, s, Activation) && Receives(w, ws, s.output, t, Activation)
    ensures TakesIn(w, ws, formats, s.output, t) <==> Meets(s, t)
  {
    TakenInIffFits(w, ws, formats, s, t, Activation);
    PutOutBounds(w, ws, formats, s, Activation);
    HandoffIsExact(s.output, t.request);
  }

  /** Of the chains whose states are delivered the host accepts exactly the linked ones, whatever their length. */
  lemma DecodeChainIsAcceptedIff(w: World, ws: Workspace, formats: StateKind -> string, stages: seq<Stage>)
    requires AllStated(stages) && Delivered(w, ws, formats, stages, Decode)
    ensures AcceptedPipeline(w, ws, formats, stages, Decode) <==> DecodeLinked(stages)
  {
    forall i | 0 < i < |stages|
      ensures TakesIn(w, ws, formats, stages[i - 1].output, stages[i]) <==> Linked(stages[i - 1], stages[i])
    {
      assert PutsOut(w, ws, formats, stages[i - 1], Decode) && Receives(w, ws, stages[i - 1].output, stages[i], Decode);
      DecodeHopIsExact(w, ws, formats, stages[i - 1], stages[i]);
    }
  }

  /** And of the pipelines whose activations are delivered exactly those with adjacent stages. */
  lemma PipelineIsAcceptedIff(w: World, ws: Workspace, formats: StateKind -> string, stages: seq<Stage>)
    requires AllStated(stages) && Delivered(w, ws, formats, stages, Activation)
    ensures AcceptedPipeline(w, ws, formats, stages, Activation) <==> Adjacent(stages)
  {
    forall i | 0 < i < |stages|
      ensures TakesIn(w, ws, formats, stages[i - 1].output, stages[i]) <==> Meets(stages[i - 1], stages[i])
    {
      assert PutsOut(w, ws, formats, stages[i - 1], Activation);
      assert Receives(w, ws, stages[i - 1].output, stages[i], Activation);
      ActivationHopIsExact(w, ws, formats, stages[i - 1], stages[i]);
    }
  }
}
