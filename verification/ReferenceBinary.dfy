/**
 The reference patched binary: a table of loaded shards in memory, a copy of each on disk, a prepared
 shard file and a prefill receipt, driven by load, prefill, decode and finalize requests.
 */
module ReferenceBinary {
  import opened PyValue
  import opened ArtifactContract
  import opened ChunkWindows
  import opened ReferenceSession
  import opened Handoff

  datatype Action = LoadShard | Prefill | DecodeStep | Finalize | Unsupported

  datatype PayloadFile = PayloadFile(path: Value, sizeBytes: Value, sha256Hex: Value)

  datatype IoTargets = IoTargets(outputPayloadPath: Value, outputStateFilePath: Value)

  /** A request; a part that is not a mapping is `None`.  `Unsupported` is a wrong ABI or action. */
  datatype Request = Request(
    action: Action, sessionId: Value, modelId: Value, layerStart: Value, layerEnd: Value, tokenStart: Value,
    tokenEnd: Value,
    assignment: Option<Artifact>, stateFilesDir: Option<Value>, input: Option<PayloadFile>,
    inputState: Option<Manifest>,
    expectedOutputKind: Value, requiresFinalOutput: Value, targets: Option<IoTargets>)

  /** What a session's files are named after. */
  datatype Slot = Slot(dir: string, sessionId: string, modelId: string, layerStart: Option<int>, layerEnd: Option<int>)

  datatype ReceiptDoc = ReceiptDoc(
    abi: Value, sessionId: Value, modelId: Value, layerStart: Value, layerEnd: Value, tokenStart: Value,
    tokenEnd: Value,
    preparedPath: Value, preparedSha: Value, preparedSize: Value, inputSha: Value, prefillDigest: Value)

  datatype StateDoc = StateDoc(
    producedBy: Action, artifactDigest: string, preparedSha: string, preparedSize: int, inputSha: string,
    inputStateDigest: Option<string>,
    tensors: seq<string>, prefillDigest: Option<string>, receiptPath: string)

  datatype ManifestDoc = ManifestDoc(manifest: Manifest, artifactDigest: string, preparedSize: int, receiptPath: string)

  type Files = map<string, Bytes>

  /**
   The host: hashing and paths, the names of a session's files, and the JSON documents as bytes.  The
   `load` functions give `None` for bytes that are not a JSON object.
   */
  datatype Host = Host(
    world: World, absolute: string -> string,
    sessionFile: Slot -> string, receiptFile: Slot -> string, preparedFile: (string, string) -> string,
    dumpSession: SessionDoc -> Bytes, loadSession: Bytes -> Option<SessionDoc>,
    dumpReceipt: ReceiptDoc -> Bytes, loadReceipt: Bytes -> Option<ReceiptDoc>,
    dumpState: StateDoc -> Bytes, dumpManifest: ManifestDoc -> Bytes, loadManifest: Bytes -> Option<Manifest>,
    formats: StateKind -> string)

  const RECEIPT_ABI := "cai-llama-cpp-reference-prefill-receipt-v1"

  // ---------------------------------------------------------------- load_shard

  function WorkspaceOf(h: Host, r: Request): Result<string, Error> {
    if r.stateFilesDir.None? then Err(WorkspaceMissing)
    else NeedPath(h.world, r.stateFilesDir.value, StateFilesDirField)
  }

  function SlotOf(h: Host, r: Request): Result<Slot, Error> {
    var dir :- WorkspaceOf(h, r);
    var sid :- Need(r.sessionId, SessionIdField);
    var mid :- Need(r.modelId, ModelIdField);
    Ok(Slot(dir, sid, mid, OptInt(r.layerStart), OptInt(r.layerEnd)))
  }

  function Located(h: Host, files: Files, r: Request): (local: Result<string, Error>)
    ensures local.Ok? ==> local.value in files && r.assignment.Some?
  {
    if r.assignment.None? then Err(AssignmentMissing)
    else
      var path :- NeedPath(h.world, r.assignment.value.localPath, LocalPathField);
      if path in files then Ok(path) else Err(ArtifactUnavailable)
  }

  datatype Inspection = Inspection(coverage: Option<Coverage>, ranges: seq<ChunkRange>, digest: WindowDigest)

  function Inspect(h: Host, file: Bytes, a: Artifact): Result<Inspection, Error> {
    var coverage, ranges := ResolveCoverage(a), StrictRanges(a);
    if coverage.Err? then Err(CoverageRefused(coverage.error))
    else if ranges.Err? then Err(RangesRefused(ranges.error))
    else
      var digest := DigestOf(h.world, file, StrictWindows(ranges.value), CleanOrNone(a.expectedDigest));
      if digest.Err? then Err(WindowRefused(digest.error)) else
          Ok(Inspection(coverage.value, ranges.value, digest.value))
  }

  /** `dict.fromkeys`: first occurrences in order; blank names are skipped. */
  function Distinct(names: seq<string>): seq<string> {
    if names == [] then []
    else
      var n := |names| - 1;
      var before := Distinct(names[..n]);
      if Strip(names[n]) == "" || names[n] in before then before else before + [names[n]]
  }

  function AllNames(ranges: seq<ChunkRange>): seq<string> {
    if ranges == [] then [] else AllNames(ranges[..|ranges| - 1]) + ranges[|ranges| - 1].tensors
  }

  function FactsOf(i: Inspection, source: string, size: int): ArtifactFacts {
    ArtifactFacts(source, size, i.digest.digest, i.digest.source, i.digest.bytesRead, |i.ranges|,
                  if i.coverage.Some? then Some(i.coverage.value.mode) else None,
                  if i.coverage.Some? then Some(i.coverage.value.coveredBytes) else None,
                  if i.coverage.Some? then Some(i.coverage.value.coveredRanges) else None,
                  Distinct(AllNames(i.ranges)))
  }

  /** The required strings are read only after the shard file has been written. */
  function Assemble(h: Host, r: Request, a: Artifact, local: string, size: int, i: Inspection, dir: string,
                    window: ShardWindow): Result<Shard, Error> {
    var sid :- Need(r.sessionId, SessionIdField);
    var mid :- Need(r.modelId, ModelIdField);
    var source :- Need(a.source, SourceField);
    var slot := Slot(dir, sid, mid, OptInt(r.layerStart), OptInt(r.layerEnd));
    Ok(Shard(sid, mid, slot.layerStart, slot.layerEnd, local, FactsOf(i, source, size), window, h.receiptFile(slot),
             h.sessionFile(slot)))
  }

  function WindowOf(h: Host, path: string, content: Bytes, ranges: seq<ChunkRange>): ShardWindow {
    ShardWindow(path, h.world.sha256(content), |content|, if ranges == [] then "full_artifact" else "chunk_ranges")
  }

  datatype Copying = Copying(seen: Inspection, dir: string, path: string, copy: Written)

  function PlanCopy(h: Host, file: Bytes, r: Request, a: Artifact): Result<Copying, Error> {
    var seen :- Inspect(h, file, a);
    var dir :- WorkspaceOf(h, r);
    Ok(Copying(seen, dir, h.preparedFile(dir, seen.digest.digest), CopyOf(file, seen.ranges)))
  }

  function Prepare(h: Host, files: Files, r: Request): (Files, Result<Shard, Error>) {
    var local := Located(h, files, r);
    if local.Err? then (files, Err(local.error))
    else
      var a := r.assignment.value;
      var plan := PlanCopy(h, files[local.value], r, a);
      if plan.Err? then (files, Err(plan.error))
      else
        var p := plan.value;
        var after := files[p.path := p.copy.content];
        (after,
         if !p.copy.complete then Err(CopyIncomplete)
         else Assemble(h, r, a, local.value, |after[local.value]|, p.seen, p.dir,
                       WindowOf(h, p.path, p.copy.content, p.seen.ranges)))
  }

  // ---------------------------------------------------------------- finding the loaded shard

  datatype State = State(loaded: map<string, Shard>, files: Files)

  datatype Source = FromMemory | FromDisk | FromNowhere

  function SourceText(s: Source): string {
    match s
    case FromMemory => "memory"
    case FromDisk => "disk"
    case FromNowhere => "none"
  }

  function Mismatch(h: Host, r: Request, c: Shard): Option<Error> {
    var sid, mid := Need(r.sessionId, SessionIdField), Need(r.modelId, ModelIdField);
    if sid.Err? then Some(sid.error)
    else if sid.value != c.sessionId then Some(SessionIdDrift)
    else if mid.Err? then Some(mid.error)
    else if mid.value != c.modelId then Some(ModelIdDrift)
    else if OptInt(r.layerStart) != c.layerStart then Some(LayerStartDrift)
    else if OptInt(r.layerEnd) != c.layerEnd then Some(LayerEndDrift)
    else if r.assignment.None? then None
    else
      var local := NeedPath(h.world, r.assignment.value.localPath, LocalPathField);
      if local.Err? then Some(local.error)
      else if local.value != c.localPath then Some(ArtifactPathDrift)
      else None
  }

  datatype Found = Found(shard: Shard, source: Source)

  function Checked(h: Host, r: Request, found: Found): Result<Found, Error> {
    var bad := Mismatch(h, r, found.shard);
    if bad.Some? then Err(bad.value) else Ok(found)
  }

  function FromDiskFile(h: Host, files: Files, path: string): Result<Shard, Error> {
    if path in files then ReadSession(h.world, path, h.loadSession(files[path])) else Err(ContextMissing)
  }

  function Recall(h: Host, st: State, r: Request): Result<Found, Error> {
    var sid :- Need(r.sessionId, SessionIdField);
    if sid in st.loaded then Checked(h, r, Found(st.loaded[sid], FromMemory))
    else
      var slot :- SlotOf(h, r);
      var c :- FromDiskFile(h, st.files, h.sessionFile(slot));
      Checked(h, r, Found(c, FromDisk))
  }

  // ---------------------------------------------------------------- process_prefill and process_decode

  function WindowFault(h: Host, files: Files, p: ShardWindow): Option<Error> {
    if p.path !in files then Some(WindowUnavailable)
    else if |files[p.path]| != p.size then Some(WindowSizeMismatch)
    else if h.world.sha256(files[p.path]) != p.sha then Some(WindowHashMismatch)
    else None
  }

  function ReadInput(h: Host, files: Files, input: Option<PayloadFile>): Result<Bytes, Error> {
    if input.None? then Ok([])
    else
      var path :- NeedPath(h.world, input.value.path, InputPathField);
      if path !in files then Err(InputUnreadable)
      else
        var payload, size, sha := files[path], OptInt(input.value.sizeBytes), Lower(Clean(input.value.sha256Hex));
        if size.Some? && size.value != |payload| then Err(InputSizeMismatch)
        else if sha != "" && sha != h.world.sha256(payload) then Err(InputHashMismatch)
        else Ok(payload)
  }

  function ShowInt(v: Option<int>): string { if v.Some? then Decimal(v.value) else "None" }

  function ExecutionDigest(h: Host, c: Shard, r: Request, inputSha: Digest): Digest {
    h.world.sha256(h.world.utf8(
      c.window.sha + ":" + inputSha + ":" + ShowInt(c.layerStart) + ":" + ShowInt(c.layerEnd) + ":"
      + ShowInt(OptInt(r.tokenStart)) + ":" + ShowInt(OptInt(r.tokenEnd))))
  }

  function ReceiptOf(c: Shard, r: Request, inputSha: Digest, digest: Digest): ReceiptDoc {
    ReceiptDoc(Text(RECEIPT_ABI), Text(c.sessionId), Text(c.modelId), FromInt(c.layerStart), FromInt(c.layerEnd),
               FromInt(OptInt(r.tokenStart)), FromInt(OptInt(r.tokenEnd)),
               Text(c.window.path), Text(c.window.sha), Num(c.window.size), Text(inputSha), Text(digest))
  }

  function ReadReceipt(h: Host, files: Files, path: string): Result<ReceiptDoc, Error> {
    if path !in files then Err(ReceiptUnavailable)
    else
      var doc := h.loadReceipt(files[path]);
      if doc.None? then Err(ReceiptInvalid)
      else if Clean(doc.value.abi) != RECEIPT_ABI then Err(ReceiptAbiUnsupported)
      else Ok(doc.value)
  }

  function ReceiptError(doc: ReceiptDoc, c: Shard, state: Option<Manifest>): Option<Error> {
    if Lower(Clean(doc.preparedSha)) != c.window.sha then Some(ReceiptShardDrift)
    else if state.None? then Some(InputStateMissing)
    else if !state.value.metadata.Metadata? then Some(MetadataMissing)
    else
      var expected, meta := Clean(doc.prefillDigest), state.value.metadata;
      if expected != "" && Clean(meta.prefillDigest) != expected then Some(PrefillDigestMismatch)
      else if Lower(Clean(meta.shardSha)) != c.window.sha then Some(StateShardMismatch)
      else None
  }

  function InputStateDigest(r: Request): Option<string> {
    if r.inputState.Some? && r.inputState.value.stateFile.StateFile? then
      NonEmpty(Lower(Clean(r.inputState.value.stateFile.sha256Hex))) else None
  }

  /** What a process request puts out; `Stranded` is a state file written before its kind is refused. */
  datatype Output =
    | NoOutput(error: Error)
    | Stranded(statePath: string, state: Bytes)
    | FinalOutput(path: string, text: Bytes)
    | StateOutput(statePath: string, state: Bytes, manifestPath: string, manifest: ManifestDoc)

  function Short(s: string): string { if |s| <= 16 then s else s[..16] }

  function FinalOutputOf(h: Host, c: Shard, r: Request, digest: Option<string>): Output {
    if r.targets.None? then NoOutput(OutputTargetsMissing)
    else
      var path := Need(r.targets.value.outputPayloadPath, OutputPayloadField);
      if path.Err? then NoOutput(path.error)
      else
        var prefill := if digest.Some? then Short(digest.value) else "no-prefill";
        var state := if InputStateDigest(r).Some? then Short(InputStateDigest(r).value) else "no-state";
        FinalOutput(h.absolute(path.value), h.world.utf8("reference:" + Short(c.window.sha) + ":" + prefill + ":" +
            state))
  }

  function ActionText(a: Action): string { if a.Prefill? then PREFILL else DECODE }

  function ManifestOf(h: Host, c: Shard, source: Source, r: Request, kind: StateKind, path: string, state: Bytes,
                      digest: Option<string>): Manifest {
    Manifest(Num(1), Text(STATE_ABI), Text(KindText(kind)), Text(ActionText(r.action)), Text(c.modelId),
             Text(c.sessionId), FromInt(c.layerStart), FromInt(c.layerEnd),
             FromInt(OptInt(r.tokenStart)), FromInt(OptInt(r.tokenEnd)), Text(h.formats(kind)),
             StateFile(Text(path), Text(h.world.sha256(state)), Num(|state|)),
             Metadata(FromText(digest), Text(c.window.sha), Text(SourceText(source))))
  }

  function ManifestDocOf(h: Host, c: Shard, source: Source, r: Request, kind: StateKind, path: string, state: Bytes,
                         digest: Option<string>): ManifestDoc {
    ManifestDoc(ManifestOf(h, c, source, r, kind, path, state, digest), c.facts.digest, c.window.size, c.receiptPath)
  }

  function StateOutputOf(h: Host, c: Shard, source: Source, r: Request, kindText: string, payload: Bytes,
                         digest: Option<string>): Output {
    if r.targets.None? then NoOutput(OutputTargetsMissing)
    else
      var payloadPath := Need(r.targets.value.outputPayloadPath, OutputPayloadField);
      var statePath := Need(r.targets.value.outputStateFilePath, OutputStateField);
      if payloadPath.Err? then NoOutput(payloadPath.error)
      else if statePath.Err? then NoOutput(statePath.error)
      else
        var path := h.absolute(statePath.value);
        var state := h.dumpState(StateDoc(r.action, c.facts.digest, c.window.sha, c.window.size,
                                          h.world.sha256(payload),
                                          InputStateDigest(r), c.facts.tensors, digest, c.receiptPath));
        var kind := ParseKind(Text(kindText));
        if kind.None? then Stranded(path, state)
        else StateOutput(path, state, h.absolute(payloadPath.value),
                         ManifestDocOf(h, c, source, r, kind.value, path, state, digest))
  }

  predicate WantsFinal(r: Request, kindText: string) {
    kindText == "final_output" || (r.action == DecodeStep && Truthy(r.requiresFinalOutput))
  }

  function OutputOf(h: Host, c: Shard, source: Source, r: Request, payload: Bytes, digest: Option<string>): Output {
    var kindText := Lower(Clean(r.expectedOutputKind));
    if kindText == "" then NoOutput(OutputKindMissing)
    else if WantsFinal(r, kindText) then FinalOutputOf(h, c, r, digest)
    else StateOutputOf(h, c, source, r, kindText, payload, digest)
  }

  function Store(h: Host, files: Files, o: Output): Files {
    match o
    case NoOutput(_) => files
    case Stranded(path, state) => files[path := state]
    case FinalOutput(path, text) => files[path := text]
    case StateOutput(path, state, manifestPath, doc) => files[path := state][manifestPath := h.dumpManifest(doc)]
  }

  datatype Reply = Refused(error: Error) | Ready(shard: Shard) | Produced(output: Output) | Finalized(source: Source)

  /** `receipt` is the digest of the prefill receipt the request wrote, refused or not. */
  datatype Outcome = Outcome(reply: Reply, receipt: Option<Digest>)

  function ReplyOf(o: Output): Reply {
    if o.NoOutput? then Refused(o.error) else if o.Stranded? then Refused(OutputKindUnsupported) else Produced(o)
  }

  function PrefillInput(h: Host, files: Files, c: Shard, r: Request): Result<Bytes, Error> {
    var bad := WindowFault(h, files, c.window);
    if bad.Some? then Err(bad.value) else ReadInput(h, files, r.input)
  }

  function PrefillOn(h: Host, files: Files, found: Found, r: Request): (Files, Outcome) {
    var c := found.shard;
    var payload := PrefillInput(h, files, c, r);
    if payload.Err? then (files, Outcome(Refused(payload.error), None))
    else
      var inputSha := h.world.sha256(payload.value);
      var digest := ExecutionDigest(h, c, r, inputSha);
      var o := OutputOf(h, c, found.source, r, payload.value, CleanOrNone(Text(digest)));
      (Store(h, files[c.receiptPath := h.dumpReceipt(ReceiptOf(c, r, inputSha, digest))], o),
       Outcome(ReplyOf(o), Some(digest)))
  }

  datatype DecodeBase = DecodeBase(receipt: ReceiptDoc, payload: Bytes)

  function DecodeInput(h: Host, files: Files, c: Shard, r: Request): Result<DecodeBase, Error> {
    var bad := WindowFault(h, files, c.window);
    if bad.Some? then Err(bad.value)
    else
      var doc :- ReadReceipt(h, files, c.receiptPath);
      var payload :- ReadInput(h, files, r.input);
      if ReceiptError(doc, c, r.inputState).Some? then
        Err(ReceiptError(doc, c, r.inputState).value) else Ok(DecodeBase(doc, payload))
  }

  function DecodeOn(h: Host, files: Files, found: Found, r: Request): (Files, Outcome) {
    var base := DecodeInput(h, files, found.shard, r);
    if base.Err? then (files, Outcome(Refused(base.error), None))
    else
      var o := OutputOf(h, found.shard, found.source, r, base.value.payload,
                        CleanOrNone(base.value.receipt.prefillDigest));
      (Store(h, files, o), Outcome(ReplyOf(o), None))
  }

  // ---------------------------------------------------------------- one request

  function LoadStep(h: Host, st: State, r: Request): (State, Outcome) {
    var (files, result) := Prepare(h, st.files, r);
    Install(h, st.loaded, files, result)
  }

  function Install(h: Host, loaded: map<string, Shard>, files: Files, result: Result<Shard, Error>): (State, Outcome) {
    if result.Err? then (State(loaded, files), Outcome(Refused(result.error), None))
    else
      var c := result.value;
      (State(loaded[c.sessionId := c], files[c.sessionPath := h.dumpSession(WriteSession(c))]), Outcome(Ready(c), None))
  }

  function ProcessOn(h: Host, files: Files, found: Found, r: Request): (Files, Outcome) {
    if r.action == Prefill then PrefillOn(h, files, found, r) else DecodeOn(h, files, found, r)
  }

  function ProcessStep(h: Host, st: State, r: Request): (State, Outcome) {
    var found := Recall(h, st, r);
    if found.Err? then (st, Outcome(Refused(found.error), None))
    else
      var (files, out) := ProcessOn(h, st.files, found.value, r);
      (State(st.loaded[found.value.shard.sessionId := found.value.shard], files), out)
  }

  /** The shard a finalize cleans up after, if there is one. */
  function Dropped(h: Host, st: State, sid: string, path: string): Option<Result<Found, Error>> {
    if sid in st.loaded then Some(Ok(Found(st.loaded[sid], FromMemory)))
    else if path !in st.files then None
    else
      var c := FromDiskFile(h, st.files, path);
      Some(if c.Ok? then Ok(Found(c.value, FromDisk)) else Err(c.error))
  }

  function Discard(files: Files, path: string, dropped: Option<Result<Found, Error>>): (Files, Reply) {
    match dropped
    case None => (files, Finalized(FromNowhere))
    case Some(Err(e)) => (files, Refused(e))
    case Some(Ok(f)) => (files - {path, f.shard.window.path, f.shard.receiptPath}, Finalized(f.source))
  }

  /** The table entry is dropped before anything can fail. */
  function FinalizeStep(h: Host, st: State, r: Request): (State, Outcome) {
    var sid := Need(r.sessionId, SessionIdField);
    if sid.Err? then (st, Outcome(Refused(sid.error), None))
    else
      var loaded := st.loaded - {sid.value};
      var slot := SlotOf(h, r);
      if slot.Err? then (State(loaded, st.files), Outcome(Refused(slot.error), None))
      else
        var path := h.sessionFile(slot.value);
        var (files, reply) := Discard(st.files, path, Dropped(h, st, sid.value, path));
        (State(loaded, files), Outcome(reply, None))
  }

  function Step(h: Host, st: State, r: Request): (State, Outcome) {
    match r.action
    case LoadShard => LoadStep(h, st, r)
    case Prefill => ProcessStep(h, st, r)
    case DecodeStep => ProcessStep(h, st, r)
    case Finalize => FinalizeStep(h, st, r)
    case Unsupported => (st, Outcome(Refused(RequestUnsupported), None))
  }

  // ---------------------------------------------------------------- the process

  lemma UnlinkInTurn(files: Files, a: string, b: string, c: string)
    ensures files - {a} - {b} - {c} == files - {a, b, c}
  {
  }

  /** The binary process: the loaded-shard table and the files it shares with its callers. */
  class Binary {
    var callCount: nat
    var loaded: map<string, Shard>
    var files: Files

    constructor (files: Files)
      ensures this.files == files && loaded == map[] && callCount == 0
    {
      this.files, loaded, callCount := files, map[], 0;
    }

    /** A new process on the same files. */
    method Restart()
      modifies this
      ensures files == old(files) && loaded == map[] && callCount == 0
    {
      loaded, callCount := map[], 0;
    }

    method Handle(h: Host, r: Request) returns (out: Outcome)
      modifies this
      ensures (State(loaded, files), out) == Step(h, State(old(loaded), old(files)), r)
      ensures callCount == old(callCount) + 1
    {
      callCount := callCount + 1;
      match r.action {
        case LoadShard => out := HandleLoad(h, r);
        case Prefill => out := HandleProcess(h, r);
        case DecodeStep => out := HandleProcess(h, r);
        case Finalize => out := HandleFinalize(h, r);
        case Unsupported => out := Outcome(Refused(RequestUnsupported), None);
      }
    }

    method PrepareShard(h: Host, r: Request) returns (result: Result<Shard, Error>)
      modifies this`files
      ensures (files, result) == Prepare(h, old(files), r)
    {
      var local := Located(h, files, r);
      if local.Err? {
        return Err(local.error);
      }
      var a, source := r.assignment.value, files[local.value];
      var coverage := ResolveCoverage(a);
      if coverage.Err? {
        return Err(CoverageRefused(coverage.error));
      }
      var ranges := ResolveChunkRanges(a);
      if ranges.Err? {
        return Err(RangesRefused(ranges.error));
      }
      var digest := BinaryWindowDigest(h.world, source, ranges.value, CleanOrNone(a.expectedDigest));
      if digest.Err? {
        return Err(WindowRefused(digest.error));
      }
      var dir := WorkspaceOf(h, r);
      if dir.Err? {
        return Err(dir.error);
      }
      var path := h.preparedFile(dir.value, digest.value.digest);
      var copy := MaterializeWindow(h.world, source, ranges.value);
      files := files[path := copy.content];
      if !copy.complete {
        return Err(CopyIncomplete);
      }
      var seen := Inspection(coverage.value, ranges.value, digest.value);
      return Assemble(h, r, a, local.value, |files[local.value]|, seen, dir.value,
                      ShardWindow(path, copy.sha, copy.size, copy.mode));
    }

    method HandleLoad(h: Host, r: Request) returns (out: Outcome)
      modifies this`loaded, this`files
      ensures (State(loaded, files), out) == LoadStep(h, State(old(loaded), old(files)), r)
    {
      var result := PrepareShard(h, r);
      if result.Err? {
        return Outcome(Refused(result.error), None);
      }
      var c := result.value;
      loaded := loaded[c.sessionId := c];
      files := files[c.sessionPath := h.dumpSession(WriteSession(c))];
      return Outcome(Ready(c), None);
    }

    method LoadContext(h: Host, r: Request) returns (found: Result<Found, Error>)
      modifies this`loaded
      ensures found == Recall(h, State(old(loaded), files), r)
      ensures loaded == if found.Ok? then old(loaded)[found.value.shard.sessionId := found.value.shard] else old(loaded)
    {
      var sid := Need(r.sessionId, SessionIdField);
      if sid.Err? {
        return Err(sid.error);
      }
      if sid.value in loaded {
        return Checked(h, r, Found(loaded[sid.value], FromMemory));
      }
      var slot := SlotOf(h, r);
      if slot.Err? {
        return Err(slot.error);
      }
      var restored := FromDiskFile(h, files, h.sessionFile(slot.value));
      if restored.Err? {
        return Err(restored.error);
      }
      found := Checked(h, r, Found(restored.value, FromDisk));
      if found.Ok? {
        loaded := loaded[sid.value := restored.value];
      }
    }

    method HandleProcess(h: Host, r: Request) returns (out: Outcome)
      modifies this`loaded, this`files
      ensures (State(loaded, files), out) == ProcessStep(h, State(old(loaded), old(files)), r)
    {
      var found := LoadContext(h, r);
      if found.Err? {
        return Outcome(Refused(found.error), None);
      }
      if r.action == Prefill {
        out := RunPrefill(h, found.value, r);
      } else {
        out := RunDecode(h, found.value, r);
      }
    }

    method RunPrefill(h: Host, found: Found, r: Request) returns (out: Outcome)
      modifies this`files
      ensures (files, out) == PrefillOn(h, old(files), found, r)
    {
      var c := found.shard;
      var bad := WindowFault(h, files, c.window);
      if bad.Some? {
        return Outcome(Refused(bad.value), None);
      }
      var payload := ReadInput(h, files, r.input);
      if payload.Err? {
        return Outcome(Refused(payload.error), None);
      }
      var inputSha := h.world.sha256(payload.value);
      var digest := ExecutionDigest(h, c, r, inputSha);
      files := files[c.receiptPath := h.dumpReceipt(ReceiptOf(c, r, inputSha, digest))];
      var output := OutputOf(h, c, found.source, r, payload.value, CleanOrNone(Text(digest)));
      files := Store(h, files, output);
      return Outcome(ReplyOf(output), Some(digest));
    }

    method RunDecode(h: Host, found: Found, r: Request) returns (out: Outcome)
      modifies this`files
      ensures (files, out) == DecodeOn(h, old(files), found, r)
    {
      var base := DecodeInput(h, files, found.shard, r);
      if base.Err? {
        return Outcome(Refused(base.error), None);
      }
      var output := OutputOf(h, found.shard, found.source, r, base.value.payload,
                             CleanOrNone(base.value.receipt.prefillDigest));
      files := Store(h, files, output);
      return Outcome(ReplyOf(output), None);
    }

    method HandleFinalize(h: Host, r: Request) returns (out: Outcome)
      modifies this`loaded, this`files
      ensures (State(loaded, files), out) == FinalizeStep(h, State(old(loaded), old(files)), r)
    {
      var sid := Need(r.sessionId, SessionIdField);
      if sid.Err? {
        return Outcome(Refused(sid.error), None);
      }
      var context := if sid.value in loaded then Some(loaded[sid.value]) else None;
      var source := if context.Some? then FromMemory else FromNowhere;
      loaded := loaded - {sid.value};
      var slot := SlotOf(h, r);
      if slot.Err? {
        return Outcome(Refused(slot.error), None);
      }
      var path := h.sessionFile(slot.value);
      if context.None? && path in files {
        var restored := FromDiskFile(h, files, path);
        if restored.Err? {
          return Outcome(Refused(restored.error), None);
        }
        context, source := Some(restored.value), FromDisk;
      }
      if context.Some? { UnlinkInTurn(files, path, context.value.window.path, context.value.receiptPath); }
      assert path !in files ==> files - {path} == files;
      files := files - {path};
      if context.Some? {
        files := files - {context.value.window.path};
        files := files - {context.value.receiptPath};
      }
      return Outcome(Finalized(source), None);
    }
  }
}
