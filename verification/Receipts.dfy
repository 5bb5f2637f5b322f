/**
 Native execution receipts: the engine side builds one for the artifact it used, the bridge side
 validates it against the same request.
 */
module Receipts {
  import opened PyValue
  import opened RequestSections
  import opened ArtifactContract

  datatype Local = Local(assignment: Option<Artifact>, model: Option<Artifact>)

  datatype ReceiptRequest = ReceiptRequest(action: Value, resolution: Option<Local>, shardSpec: Section, frame: Section)

  datatype Choice = Choice(kind: string, artifactId: Option<string>, source: string, path: string,
                           fallback: Option<string>)

  datatype Receipt = Receipt(
    schemaVersion: Value, executionMode: Value, action: Value, modelId: Value, layerStart: Value, layerEnd: Value,
    artifactKind: Value, artifactId: Value, artifactSource: Value, artifactPath: Value, usedPatchedBackend: Value,
    fallbackMode: Value)

  datatype SelectError = AssignmentUnavailable | ModelUnavailable | KindUnsupported | SourceMissing | PathMissing

  datatype ReceiptError =
    | Missing | SchemaInvalid | SchemaUnsupported | ModeUnsupported | ActionMismatch | BackendUnconfirmed
    | ModelIdMismatch | LayerStartMismatch | LayerEndMismatch | KindInvalid | NoSource | NoPath
    | ArtifactAbsent | SourceMismatch | PathMismatch | ArtifactIdMismatch | FallbackUndeclared

  predicate IsProcess(r: ReceiptRequest) {
    Clean(r.action) == "process_prefill" || Clean(r.action) == "process_decode"
  }

  // ---------------------------------------------------------------- building

  function ChoiceOf(w: World, a: Artifact, kind: string, fallback: Option<string>): Result<Choice, SelectError> {
    var path := Clean(a.localPath);
    if Clean(a.source) == "" then Err(SourceMissing)
    else if path == "" then Err(PathMissing)
    else Ok(Choice(kind, CleanOrNone(a.artifactId), Clean(a.source),
                   if w.resolve(path).Some? then w.resolve(path).value else path, fallback))
  }

  datatype Pick = Pick(artifact: Artifact, kind: string, fallback: Option<string>)

  /** Which of the resolved artifacts is used: the preferred kind, else the assignment, else the model. */
  function PickOf(local: Local, preferred: string): Result<Option<Pick>, SelectError> {
    if preferred == "assignment" then
      if local.assignment.None? then
        Err(AssignmentUnavailable) else Ok(Some(Pick(local.assignment.value, "assignment", None)))
    else if preferred == "model" then
      if local.model.None? then Err(ModelUnavailable)
      else Ok(Some(Pick(local.model.value, "model", if local.assignment.Some? then Some("full_model") else None)))
    else if preferred != "" then Err(KindUnsupported)
    else if local.assignment.Some? then Ok(Some(Pick(local.assignment.value, "assignment", None)))
    else if local.model.Some? then Ok(Some(Pick(local.model.value, "model", None)))
    else Ok(None)
  }

  function Preferred(kind: Option<string>): string { Lower(Strip(if kind.Some? then kind.value else "")) }

  function Select(w: World, r: ReceiptRequest, kind: Option<string>): Result<Option<Choice>, SelectError> {
    if !IsProcess(r) || r.resolution.None? then Ok(None)
    else
      var pick :- PickOf(r.resolution.value, Preferred(kind));
      if pick.None? then Ok(None)
      else
        var c :- ChoiceOf(w, pick.value.artifact, pick.value.kind, pick.value.fallback);
        Ok(Some(c))
  }

  /** `str(fallback_mode or choice.fallback_mode or "").strip()` */
  function DeclaredFallback(fallback: Option<string>, chosen: Option<string>): string {
    if fallback.Some? && fallback.value != "" then Strip(fallback.value)
    else if chosen.Some? then Strip(chosen.value) else ""
  }

  function Build(w: World, r: ReceiptRequest, kind: Option<string>, used: bool,
                 fallback: Option<string>): Result<Option<Receipt>, SelectError> {
    if !IsProcess(r) then Ok(None)
    else
      var choice :- Select(w, r, kind);
      if choice.None? then Ok(None)
      else
        var c := choice.value;
        Ok(Some(Receipt(
                  Num(1), Text("layer_range"), Text(Clean(r.action)), FromText(ModelIdOf(r.shardSpec, r.frame)),
                  FromNat(ReceiptLayerStart(r.shardSpec, r.frame)), FromNat(ReceiptLayerEnd(r.shardSpec, r.frame)),
                  Text(c.kind), FromText(c.artifactId), Text(c.source), Text(c.path), Bool(used),
                  FromText(NonEmpty(DeclaredFallback(fallback, c.fallback))))))
  }

  function FromNat(v: Option<nat>): Value { if v.Some? then Num(v.value) else Null }

  // ---------------------------------------------------------------- validating

  predicate PathsMatch(w: World, left: string, right: string) {
    if w.resolve(left).Some? && w.resolve(right).Some? then w.resolve(left) == w.resolve(right)
    else Strip(left) == Strip(right)
  }

  function MatchArtifact(w: World, v: Receipt, a: Artifact): Option<ReceiptError> {
    var expectedId, declaredId := Clean(a.artifactId), Clean(v.artifactId);
    if Clean(v.artifactSource) != Clean(a.source) then Some(SourceMismatch)
    else if !PathsMatch(w, Clean(v.artifactPath), Clean(a.localPath)) then Some(PathMismatch)
    else if expectedId != "" && declaredId != "" && declaredId != expectedId then Some(ArtifactIdMismatch)
    else None
  }

  /** The checks that do not look at the artifacts. */
  function MatchHeader(r: ReceiptRequest, v: Receipt): Option<ReceiptError> {
    HeaderFault(v, Clean(r.action), ModelIdOf(r.shardSpec, r.frame), ReceiptLayerStart(r.shardSpec, r.frame),
                ReceiptLayerEnd(r.shardSpec, r.frame))
  }

  function HeaderFault(v: Receipt, action: string, modelId: Option<string>, start: Option<nat>,
                       end: Option<nat>): Option<ReceiptError> {
    if Truthy(v.schemaVersion) && OptInt(v.schemaVersion).None? then Some(SchemaInvalid)
    else if !Truthy(v.schemaVersion) || OptInt(v.schemaVersion) != Some(1) then Some(SchemaUnsupported)
    else if Clean(v.executionMode) != "layer_range" then Some(ModeUnsupported)
    else if Clean(v.action) != action then Some(ActionMismatch)
    else if !Truthy(v.usedPatchedBackend) then Some(BackendUnconfirmed)
    else if modelId.Some? && Clean(v.modelId) != modelId.value then Some(ModelIdMismatch)
    else if start.Some? && OptNat(v.layerStart) != start then Some(LayerStartMismatch)
    else if end.Some? && OptNat(v.layerEnd) != end then Some(LayerEndMismatch)
    else None
  }

  function Validate(w: World, r: ReceiptRequest, value: Option<Receipt>): Result<Option<Receipt>, ReceiptError> {
    if !IsProcess(r) || r.resolution.None? then Ok(None)
    else if value.None? then Err(Missing)
    else
      var v, Local(assignment, model) := value.value, r.resolution.value;
      var kind := Lower(Clean(v.artifactKind));
      if MatchHeader(r, v).Some? then Err(MatchHeader(r, v).value)
      else if kind != "assignment" && kind != "model" then Err(KindInvalid)
      else if Clean(v.artifactSource) == "" then Err(NoSource)
      else if Clean(v.artifactPath) == "" then Err(NoPath)
      else if kind == "assignment" then
        if assignment.None? then Err(ArtifactAbsent)
        else if MatchArtifact(w, v, assignment.value).Some? then Err(MatchArtifact(w, v, assignment.value).value)
        else Ok(Some(v))
      else if model.None? then Err(ArtifactAbsent)
      else if MatchArtifact(w, v, model.value).Some? then Err(MatchArtifact(w, v, model.value).value)
      else if assignment.Some? && Clean(v.fallbackMode) != "full_model" then Err(FallbackUndeclared)
      else Ok(Some(v))
  }

  // ---------------------------------------------------------------- what an accepted receipt says

  /** The receipt is for this execution: schema, mode, action, backend, and the model and layers the request states. */
  predicate ForThisExecution(r: ReceiptRequest, v: Receipt) {
    && Truthy(v.schemaVersion) && OptInt(v.schemaVersion) == Some(1)
    && Clean(v.executionMode) == "layer_range" && Clean(v.action) == Clean(r.action) && Truthy(v.usedPatchedBackend)
    && (ModelIdOf(r.shardSpec, r.frame).Some? ==> Some(Clean(v.modelId)) == ModelIdOf(r.shardSpec, r.frame))
    && (ReceiptLayerStart(r.shardSpec, r.frame).Some? ==>
          OptNat(v.layerStart) == ReceiptLayerStart(r.shardSpec, r.frame))
    && (ReceiptLayerEnd(r.shardSpec, r.frame).Some? ==> OptNat(v.layerEnd) == ReceiptLayerEnd(r.shardSpec, r.frame))
  }

  /** The receipt names this artifact: one source, paths that mean one file, and no other id. */
  predicate ForThisArtifact(w: World, v: Receipt, a: Artifact) {
    && Clean(v.artifactSource) != "" && Clean(v.artifactSource) == Clean(a.source)
    && Clean(v.artifactPath) != "" && OneFile(w, Clean(v.artifactPath), Clean(a.localPath))
    && (Clean(v.artifactId) == Clean(a.artifactId) || Clean(v.artifactId) == "" || Clean(a.artifactId) == "")
  }

  /** Two trimmed paths mean one file: they resolve alike, and paths that do not resolve are equal. */
  predicate OneFile(w: World, p: string, q: string) {
    w.resolve(p) == w.resolve(q) && (w.resolve(p).None? ==> p == q)
  }

  /** The artifact is the resolved one of its kind, and a model beside an assignment is declared as a fallback. */
  predicate Justified(w: World, local: Local, v: Receipt) {
    || (Lower(Clean(v.artifactKind)) == "assignment" && local.assignment.Some?
        && ForThisArtifact(w, v, local.assignment.value))
    || (Lower(Clean(v.artifactKind)) == "model" && local.model.Some? && ForThisArtifact(w, v, local.model.value)
        && (local.assignment.Some? ==> Clean(v.fallbackMode) == "full_model"))
  }

  lemma HeaderIsExact(r: ReceiptRequest, v: Receipt)
    ensures MatchHeader(r, v).None? <==> ForThisExecution(r, v)
  {
  }

  lemma ArtifactMatchIsExact(w: World, v: Receipt, a: Artifact)
    requires Clean(v.artifactSource) != "" && Clean(v.artifactPath) != ""
    ensures MatchArtifact(w, v, a).None? <==> ForThisArtifact(w, v, a)
  {
    assert Strip(Clean(v.artifactPath)) == Clean(v.artifactPath) && Strip(Clean(a.localPath)) == Clean(a.localPath);
  }

  /**
   The bridge's validator on every receipt, whoever wrote it: where a receipt is asked for it is accepted, and handed
   on as it is, exactly when it is for this execution and names a resolved artifact that justifies it.
   */
  lemma ValidReceiptMeans(w: World, r: ReceiptRequest, value: Option<Receipt>)
    ensures !IsProcess(r) || r.resolution.None? ==> Validate(w, r, value) == Ok(None)
    ensures IsProcess(r) && r.resolution.Some? ==>
              && (Validate(w, r, value).Ok? <==>
                    value.Some? && ForThisExecution(r, value.value) && Justified(w, r.resolution.value, value.value))
              && (Validate(w, r, value).Ok? ==> Validate(w, r, value) == Ok(value))
  {
    if IsProcess(r) && r.resolution.Some? && value.Some? {
      HeaderIsExact(r, value.value);
      ValidateSplits(w, r, value.value, Lower(Clean(value.value.artifactKind)));
      MatchIsJustified(w, r.resolution.value, value.value, Lower(Clean(value.value.artifactKind)));
    }
  }

  /** The artifact part of the check, by kind. */
  predicate KindMatches(w: World, local: Local, v: Receipt, kind: string) {
    && Clean(v.artifactSource) != "" && Clean(v.artifactPath) != ""
    && (|| (kind == "assignment" && local.assignment.Some? && MatchArtifact(w, v, local.assignment.value).None?)
        || (kind == "model" && local.model.Some? && MatchArtifact(w, v, local.model.value).None?
            && (local.assignment.Some? ==> Clean(v.fallbackMode) == "full_model")))
  }

  lemma ValidateSplits(w: World, r: ReceiptRequest, v: Receipt, kind: string)
    requires IsProcess(r) && r.resolution.Some? && kind == Lower(Clean(v.artifactKind))
    ensures Validate(w, r, Some(v)).Ok? <==> MatchHeader(r, v).None? && KindMatches(w, r.resolution.value, v, kind)
    ensures Validate(w, r, Some(v)).Ok? ==> Validate(w, r, Some(v)) == Ok(Some(v))
  {
    assert "assignment" != "model";
  }

  lemma MatchIsJustified(w: World, local: Local, v: Receipt, kind: string)
    requires kind == Lower(Clean(v.artifactKind))
    ensures KindMatches(w, local, v, kind) <==> Justified(w, local, v)
  {
    if Clean(v.artifactSource) != "" && Clean(v.artifactPath) != "" {
      if local.assignment.Some? { ArtifactMatchIsExact(w, v, local.assignment.value); }
      if local.model.Some? { ArtifactMatchIsExact(w, v, local.model.value); }
    }
  }

  // ---------------------------------------------------------------- agreement

  /** The fallback the builder was given can be declared: none, blank is refused, or full_model. */
  predicate FallbackFits(r: ReceiptRequest, kind: Option<string>, fallback: Option<string>) {
    Preferred(kind) == "model" && r.resolution.Some? && r.resolution.value.assignment.Some? ==>
      fallback.None? || fallback.value == "" || Strip(fallback.value) == "full_model"
  }

  lemma KindNames()
    ensures Lower(Clean(Text("assignment"))) == "assignment" && Lower(Clean(Text("model"))) == "model"
    ensures Strip("full_model") == "full_model"
    ensures "assignment" != "model" && "full_model" != ""
  {
    assert Lower("assignment") == "assignment" && Lower("model") == "model";
  }

  lemma ModeReadsBack()
    ensures Clean(Text("layer_range")) == "layer_range"
  {
  }

  lemma BuiltHeaderFault(v: Receipt, action: string, modelId: Option<string>, start: Option<nat>, end: Option<nat>)
    requires v.schemaVersion == Num(1) && v.executionMode == Text("layer_range") && v.action == Text(action)
    requires Trimmed(action)
    requires v.modelId == FromText(modelId) && (modelId.Some? ==> Trimmed(modelId.value)) && v.usedPatchedBackend.Bool?
    requires v.layerStart == FromNat(start) && v.layerEnd == FromNat(end)
    ensures HeaderFault(v, action, modelId, start, end) == if v.usedPatchedBackend.flag then
        None else Some(BackendUnconfirmed)
  {
    ModeReadsBack();
    CleanKeeps(action);
    if modelId.Some? { CleanKeeps(modelId.value); }
  }

  lemma CleanKeeps(s: string)
    requires Trimmed(s)
    ensures Clean(Text(s)) == s
  {
  }

  lemma BuiltHeaderMatches(r: ReceiptRequest, v: Receipt)
    requires v.schemaVersion == Num(1) && v.executionMode == Text("layer_range") && v.action == Text(Clean(r.action))
    requires v.modelId == FromText(ModelIdOf(r.shardSpec, r.frame)) && v.usedPatchedBackend.Bool?
    requires v.layerStart == FromNat(ReceiptLayerStart(r.shardSpec, r.frame))
    requires v.layerEnd == FromNat(ReceiptLayerEnd(r.shardSpec, r.frame))
    ensures MatchHeader(r, v) == if v.usedPatchedBackend.flag then None else Some(BackendUnconfirmed)
  {
    BuiltHeaderFault(v, Clean(r.action), ModelIdOf(r.shardSpec, r.frame), ReceiptLayerStart(r.shardSpec, r.frame),
                     ReceiptLayerEnd(r.shardSpec, r.frame));
  }

  /** The artifact's resolved path, which the receipt states, is still the same after stripping. */
  predicate PathReadsBack(w: World, a: Artifact) {
    var resolved := w.resolve(Clean(a.localPath));
    resolved.Some? ==> PathKept(w, resolved.value)
  }

  /** The artifact that the builder picks for this kind has such a path. */
  predicate KindReadsBack(w: World, r: ReceiptRequest, kind: Option<string>) {
    r.resolution.Some? ==>
      var pick := PickOf(r.resolution.value, Preferred(kind));
      pick.Ok? && pick.value.Some? ==> PathReadsBack(w, pick.value.value.artifact)
  }

  lemma ChosenArtifactMatches(w: World, v: Receipt, a: Artifact, c: Choice, kind: string, fallback: Option<string>)
    requires ChoiceOf(w, a, kind, fallback) == Ok(c)
    requires v.artifactId == FromText(c.artifactId) && v.artifactSource == Text(c.source)
    requires v.artifactPath == Text(c.path)
    ensures Clean(v.artifactSource) != ""
    ensures Clean(v.artifactPath) != "" && MatchArtifact(w, v, a) == None <==> PathReadsBack(w, a)
  {
    CleanKeeps(c.source);
    ChosenIdReadsBack(a.artifactId);
    ChosenPathMatches(w, Clean(a.localPath), c.path);
    OnlyPathDecides(w, v, a);
  }

  lemma ChosenIdReadsBack(id: Value)
    ensures Clean(FromText(CleanOrNone(id))) == Clean(id)
  {
    CleanKeeps(Clean(id));
  }

  lemma OnlyPathDecides(w: World, v: Receipt, a: Artifact)
    requires Clean(v.artifactSource) == Clean(a.source) && Clean(v.artifactId) == Clean(a.artifactId)
    ensures MatchArtifact(w, v, a).None? <==> PathsMatch(w, Clean(v.artifactPath), Clean(a.localPath))
  {
  }

  /** The builder's path against the artifact's own, as the bridge compares them. */
  lemma ChosenPathMatches(w: World, path: string, chosen: string)
    requires Trimmed(path) && path != ""
    requires chosen == if w.resolve(path).Some? then w.resolve(path).value else path
    ensures Clean(Text(chosen)) != "" && PathsMatch(w, Clean(Text(chosen)), path) <==>
              (w.resolve(path).Some? ==> PathKept(w, w.resolve(path).value))
  {
    TextCleans(chosen);
    StrippedPathMatches(w, path, chosen, Strip(chosen));
  }

  lemma TextCleans(s: string)
    ensures Clean(Text(s)) == Strip(s)
  {
  }

  lemma StrippedPathMatches(w: World, path: string, chosen: string, stripped: string)
    requires stripped == Strip(chosen) && Strip(path) == path != ""
    requires chosen == if w.resolve(path).Some? then w.resolve(path).value else path
    ensures stripped != "" && PathsMatch(w, stripped, path) <==>
              (w.resolve(path).Some? ==> PathKept(w, w.resolve(path).value))
  {
    assert Strip(stripped) == stripped;
  }

  /** A receipt whose source or path does not match is refused. */
  lemma ValidateUnmatched(w: World, r: ReceiptRequest, v: Receipt, kind: string, a: Artifact)
    requires IsProcess(r) && r.resolution.Some? && Lower(Clean(v.artifactKind)) == kind
    requires (kind == "assignment" && r.resolution.value.assignment == Some(a))
        || (kind == "model" && r.resolution.value.model == Some(a))
    requires !(Clean(v.artifactPath) != "" && MatchArtifact(w, v, a) == None)
    ensures Validate(w, r, Some(v)).Err?
  {
  }

  /** The bridge's verdict once source, path and artifact match. */
  lemma ValidateMatched(w: World, r: ReceiptRequest, v: Receipt, kind: string, a: Artifact)
    requires IsProcess(r) && r.resolution.Some? && Lower(Clean(v.artifactKind)) == kind
    requires (kind == "assignment" && r.resolution.value.assignment == Some(a))
        || (kind == "model" && r.resolution.value.model == Some(a))
    requires Clean(v.artifactSource) != "" && Clean(v.artifactPath) != "" && MatchArtifact(w, v, a) == None
    ensures Validate(w, r, Some(v)).Ok? <==>
              && MatchHeader(r, v).None?
              && (kind == "model" && r.resolution.value.assignment.Some? ==> Clean(v.fallbackMode) == "full_model")
    ensures Validate(w, r, Some(v)).Ok? ==> Validate(w, r, Some(v)) == Ok(Some(v))
  {
  }

  /** What the pick guarantees: the artifact is the resolved one of its kind, and a model used although
      an assignment is at hand was asked for and declares the full-model fallback. */
  lemma PickFacts(local: Local, preferred: string, p: Pick)
    requires PickOf(local, preferred) == Ok(Some(p))
    ensures (p.kind == "assignment" && local.assignment == Some(p.artifact))
        || (p.kind == "model" && local.model == Some(p.artifact))
    ensures p.kind == "model" && local.assignment.Some? ==> preferred == "model" && p.fallback == Some("full_model")
    ensures preferred == "model" ==> p.kind == "model"
  {
  }

  /** The artifact of the kind is at hand. */
  predicate AtHand(local: Local, kind: string) {
    (kind == "assignment" && local.assignment.Some?) || (kind == "model" && local.model.Some?)
  }

  /**
   Which artifact is picked: the preferred kind if it is at hand, and an error if it is not or is unknown; without a
   preference the assignment, else the model, else none; only a preferred model beside an assignment is a fallback.
   */
  lemma PickIsExact(local: Local, preferred: string)
    ensures PickOf(local, preferred).Err? <==> preferred != "" && !AtHand(local, preferred)
    ensures PickOf(local, preferred) == Ok(None) <==>
              preferred == "" && !AtHand(local, "assignment") && !AtHand(local, "model")
    ensures PickOf(local, preferred).Ok? && PickOf(local, preferred).value.Some? ==>
              var p := PickOf(local, preferred).value.value;
              && (preferred != "" ==> p.kind == preferred)
              && (preferred == "" ==> p.kind == if local.assignment.Some? then "assignment" else "model")
              && (p.fallback == Some("full_model") <==> preferred == "model" && local.assignment.Some?)
              && (p.fallback.Some? ==> p.fallback == Some("full_model"))
  {
    assert "assignment" != "model";
  }

  /**
   Receipt agreement: a receipt built for a request is accepted by the bridge for that request exactly
   when it confirms the patched backend, its fallback can be declared and its path reads back.
   */
  lemma BuiltReceiptIsAccepted(w: World, r: ReceiptRequest, kind: Option<string>, used: bool, fallback: Option<string>)
    requires Build(w, r, kind, used, fallback).Ok? && Build(w, r, kind, used, fallback).value.Some?
    ensures var receipt := Build(w, r, kind, used, fallback).value;
            Validate(w, r, receipt) == Ok(receipt) <==>
              used && FallbackFits(r, kind, fallback) && KindReadsBack(w, r, kind)
  {
    var v := Build(w, r, kind, used, fallback).value.value;
    var c := Select(w, r, kind).value.value;
    var p := PickOf(r.resolution.value, Preferred(kind)).value.value;
    PickFacts(r.resolution.value, Preferred(kind), p);
    FallbackReadsBack(fallback, c.fallback);
    BuiltHeaderMatches(r, v);
    ChosenArtifactMatches(w, v, p.artifact, c, p.kind, p.fallback);
    if PathReadsBack(w, p.artifact) {
      MatchedReceiptIsAccepted(w, r, v, p, kind, fallback);
    } else {
      KindNames();
      ValidateUnmatched(w, r, v, p.kind, p.artifact);
    }
  }

  lemma FallbackReadsBack(fallback: Option<string>, chosen: Option<string>)
    ensures Clean(FromText(NonEmpty(DeclaredFallback(fallback, chosen)))) == DeclaredFallback(fallback, chosen)
  {
  }

  lemma MatchedReceiptIsAccepted(w: World, r: ReceiptRequest, v: Receipt, p: Pick, kind: Option<string>,
                                 fallback: Option<string>)
    requires IsProcess(r) && r.resolution.Some? && PickOf(r.resolution.value, Preferred(kind)) == Ok(Some(p))
    requires v.artifactKind == Text(p.kind) && Clean(v.fallbackMode) == DeclaredFallback(fallback, p.fallback)
    requires v.usedPatchedBackend.Bool? && MatchHeader(r, v) == if v.usedPatchedBackend.flag then
        None else Some(BackendUnconfirmed)
    requires Clean(v.artifactSource) != "" && Clean(v.artifactPath) != "" && MatchArtifact(w, v, p.artifact) == None
    ensures Validate(w, r, Some(v)) == Ok(Some(v)) <==> v.usedPatchedBackend.flag && FallbackFits(r, kind, fallback)
  {
    PickFacts(r.resolution.value, Preferred(kind), p);
    KindNames();
    ValidateMatched(w, r, v, p.kind, p.artifact);
  }

  // ---------------------------------------------------------------- a path with outer white space

  /** A host on which "l" is a link to a file whose name ends with a blank. */
  function LinkedWorld(): World {
    var zeros: Digest := seq(64, i => '0');
    World(b => zeros, t => [], p => if p == "l" then Some("b ") else Some(p))
  }

  lemma BlankStrips()
    ensures Strip("b ") == "b" && Clean(Text("b ")) == "b"
  {
    assert StripLeft("b ", 2) == "b ";
    assert StripRight("b ", 2) == StripRight("b ", 1) == "b" by { assert "b "[..1] == "b"; }
  }

  /** The receipt for an only assignment, built without a preference. */
  lemma BuiltForAssignment(w: World, r: ReceiptRequest, a: Artifact, resolved: string)
    requires IsProcess(r) && r.resolution == Some(Local(Some(a), None)) && Clean(a.source) != ""
    requires Clean(a.localPath) != "" && w.resolve(Clean(a.localPath)) == Some(resolved)
    ensures var built := Build(w, r, None, true, None);
            && built.Ok? && built.value.Some? && MatchHeader(r, built.value.value).None?
            && var v := built.value.value;
               && v.artifactPath == Text(resolved) && v.artifactSource == Text(Clean(a.source))
               && Lower(Clean(v.artifactKind)) == "assignment"
  {
    var built := Build(w, r, None, true, None);
    assert Preferred(None) == "";
    BuiltHeaderMatches(r, built.value.value);
    KindNames();
  }

  lemma OtherPathIsRefused(w: World, r: ReceiptRequest, a: Artifact, v: Receipt)
    requires IsProcess(r) && r.resolution == Some(Local(Some(a), None)) && MatchHeader(r, v).None?
    requires Lower(Clean(v.artifactKind)) == "assignment" && v.artifactSource == Text(Clean(a.source))
    requires Clean(a.source) != "" && Clean(v.artifactPath) != ""
    requires !PathsMatch(w, Clean(v.artifactPath), Clean(a.localPath))
    ensures Validate(w, r, Some(v)) == Err(PathMismatch)
  {
    CleanKeeps(Clean(a.source));
  }

  /** A receipt for the linked artifact states its path with the blank, and the bridge refuses it. */
  lemma PaddedReceiptIsRefused(r: ReceiptRequest, a: Artifact) returns (w: World)
    requires IsProcess(r) && r.resolution == Some(Local(Some(a), None)) && Clean(a.source) != ""
    requires Clean(a.localPath) == "l"
    ensures PathsResolve(w)
    ensures var built := Build(w, r, None, true, None);
            && built.Ok? && built.value.Some? && built.value.value.artifactPath == Text("b ")
            && Validate(w, r, built.value) == Err(PathMismatch)
  {
    w := LinkedWorld();
    LinkResolves();
    BuiltForAssignment(w, r, a, "b ");
    OtherPathIsRefused(w, r, a, Build(w, r, None, true, None).value.value);
  }

  lemma LinkResolves()
    ensures PathsResolve(LinkedWorld()) && LinkedWorld().resolve("l") == Some("b ")
    ensures Clean(Text("b ")) == "b" && !PathsMatch(LinkedWorld(), Clean(Text("b ")), "l")
  {
    BlankStrips();
    assert LinkedWorld().resolve("b") == Some("b") && |"b"| != |"b "|;
  }
}
